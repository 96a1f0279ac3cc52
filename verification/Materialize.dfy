/** -materialize, -dematerialize and that the second undoes the first. */
module Materialize {
  import Lists
  import opened RacEvents
  import opened SignalBind

  /** -materialize: every event becomes a value, and an error or completion is followed by completion. */
  function Materialized<V>(history: seq<Event<V>>): seq<Event<Event<V>>> {
    if history == [] then []
    else
      var last := history[|history| - 1];
      Materialized(history[..|history| - 1]) + [Next(last)] + if last.Finished() then [Completed] else []
  }

  /** Every event as a value. */
  function AsValues<V>(history: seq<Event<V>>): seq<Event<Event<V>>> {
    seq(|history|, i requires 0 <= i < |history| => Next(history[i]))
  }

  lemma {:induction false} MaterializedAre<V>(history: seq<Event<V>>)
    requires Grammar(history)
    ensures Materialized(history) == AsValues(history) + if Ended(history) then [Completed] else []
  {
    if history != [] {
      var front, n := history[..|history| - 1], |history| - 1;
      assert front == [] || front[n - 1].Next?;
      MaterializedAre(front);
      assert AsValues(history) == AsValues(front) + [Next(history[n])];
      Lists.ConcatEmpty(AsValues(front));
    }
  }

  /** What the materialized signal sends is a grammatical history of the original's events, and never an error. */
  lemma MaterializedIsGrammatical<V>(history: seq<Event<V>>)
    requires Grammar(history)
    ensures Grammar(Materialized(history))
    ensures Ended(Materialized(history)) == Ended(history)
    ensures Materialized(history) == seq(|history|, i requires 0 <= i < |history| => Next(history[i]))
      + if Ended(history) then [Completed] else []
  {
    MaterializedAre(history);
  }

  /**
   * What -dematerialize does with one event it is sent, while its `k`-th signal is `signal`: the
   * returned signals send as soon as they are subscribed to, before `stop` is looked at.
   */
  function StepsFor<V>(e: Event<Event<V>>, k: nat, signal: Object): seq<Step<V>> {
    match e
    case Next(Next(v)) => [Return(signal), InnerNext(k, v), InnerDone(k)]
    case Next(Error(code)) => [Return(signal), InnerError(k, code), Stop]
    case Next(Completed) => [Return(signal), InnerDone(k), Stop]
    case Completed => [SourceDone]
    case Error(code) => [SourceError(code)]
  }

  /** The dematerialized subscription after `sent`, with returned signals of any identity. */
  function Dematerialized<V>(sent: seq<Event<Event<V>>>, source: Object, signals: nat -> Object): State<V>
    decreases |sent|
  {
    if sent == [] then Initial(source)
    else
      var before, n := Dematerialized(sent[..|sent| - 1], source, signals), |sent| - 1;
      ApplyAll(before, StepsFor(sent[n], before.nextId, signals(n)))
  }

  function ApplyAll<V>(s: State<V>, steps: seq<Step<V>>): State<V>
    decreases |steps|
  {
    if steps == [] then s else Apply(ApplyAll(s, steps[..|steps| - 1]), steps[|steps| - 1])
  }

  lemma ThreeSteps<V>(s: State<V>, a: Step<V>, b: Step<V>, c: Step<V>)
    ensures ApplyAll(s, [a, b, c]) == Apply(Apply(Apply(s, a), b), c)
  {
    OneStep(s, a);
    Lists.WithoutLast([a], b);
    Lists.WithoutLast([a, b], c);
    assert [a] + [b] == [a, b] && [a, b] + [c] == [a, b, c];
    assert ApplyAll(s, [a, b]) == Apply(ApplyAll(s, [a]), b);
  }

  lemma OneStep<V>(s: State<V>, a: Step<V>)
    ensures ApplyAll(s, [a]) == Apply(s, a)
  {
    assert [a][..0] == [];
  }

  /** Between two events nothing but the source is open. */
  ghost predicate Resting<V>(s: State<V>, source: Object) {
    s.source == source && s.sourceOpen && !s.lingering && s.signals == [source] && s.open == map[] && !s.out.disposed
  }

  ghost predicate Closed<V>(s: State<V>) {
    s.out.disposed && !s.sourceOpen && !s.lingering && s.open == map[]
  }

  lemma RemoveOther(source: Object, signal: Object)
    requires signal != source
    ensures RemoveAll([source] + [signal], signal) == [source]
    ensures RemoveAll([source], source) == []
  {
    var two := [source] + [signal];
    assert two[1..] == [signal] && two[0] == source && [signal][1..] == [] && [source][1..] == [];
    assert RemoveAll([signal], signal) == [];
  }

  lemma NextPasses<V>(s: State<V>, source: Object, signal: Object, v: V)
    requires Resting(s, source) && signal != source
    ensures
      var r := ApplyAll(s, StepsFor(Next(Next(v)), s.nextId, signal));
      Resting(r, source) && r.out.received == s.out.received + [Next(v)]
  {
    var k := s.nextId;
    ThreeSteps(s, Return(signal), InnerNext(k, v), InnerDone(k));
    RemoveOther(source, signal);
    var returned := Apply(s, Return(signal));
    assert returned.open == map[k := signal];
    var sent := Apply(returned, InnerNext(k, v));
    assert sent.open - {k} == map[];
  }

  lemma ErrorPasses<V>(s: State<V>, source: Object, signal: Object, code: ErrorCode)
    requires Resting(s, source) && signal != source
    ensures
      var r := ApplyAll(s, StepsFor<V>(Next(Event<V>.Error(code)), s.nextId, signal));
      Closed(r) && r.out.received == s.out.received + [Error(code)]
  {
    ThreeSteps(s, Return(signal), InnerError(s.nextId, code), Stop);
    var returned := Apply(s, Return(signal));
    assert s.nextId in returned.open && returned.out == s.out;
    var failed := Apply(returned, InnerError(s.nextId, code));
    assert Closed(failed) && Apply(failed, Stop) == failed;
  }

  lemma CompletionPasses<V>(s: State<V>, source: Object, signal: Object)
    requires Resting(s, source) && signal != source
    ensures
      var r := ApplyAll(s, StepsFor<V>(Next(Event<V>.Completed), s.nextId, signal));
      Closed(r) && r.out.received == s.out.received + [Completed]
  {
    var k := s.nextId;
    ThreeSteps(s, Return(signal), InnerDone(k), Stop);
    RemoveOther(source, signal);
    var returned := Apply(s, Return(signal));
    assert returned.open == map[k := signal];
    assert returned.open - {k} == map[];
  }

  lemma DematerializedOneMore<V>(sent: seq<Event<Event<V>>>, e: Event<Event<V>>, source: Object, signals: nat -> Object)
    ensures
      var before := Dematerialized(sent, source, signals);
      Dematerialized(sent + [e], source, signals) == ApplyAll(before, StepsFor(e, before.nextId, signals(|sent|)))
  {
    Lists.WithoutLast(sent, e);
  }

  /** The completion that follows an error or completion finds the subscription closed. */
  lemma NothingAfterClosing<V>(sent: seq<Event<Event<V>>>, source: Object, signals: nat -> Object)
    requires Closed(Dematerialized(sent, source, signals))
    ensures Dematerialized(sent + [Event<Event<V>>.Completed], source, signals) == Dematerialized(sent, source, signals)
  {
    DematerializedOneMore(sent, Event<Event<V>>.Completed, source, signals);
    OneStep(Dematerialized(sent, source, signals), Step<V>.SourceDone);
  }

  lemma EventPasses<V>(sent: seq<Event<Event<V>>>, e: Event<V>, source: Object, signals: nat -> Object)
    requires Resting(Dematerialized(sent, source, signals), source) && forall k :: signals(k) != source
    ensures
      var r := Dematerialized(sent + [Next(e)], source, signals);
      && r.out.received == Dematerialized(sent, source, signals).out.received + [e]
      && if e.Finished() then Closed(r) else Resting(r, source)
  {
    var s, signal := Dematerialized(sent, source, signals), signals(|sent|);
    DematerializedOneMore(sent, Next(e), source, signals);
    match e {
      case Next(v) => NextPasses(s, source, signal, v);
      case Error(code) => ErrorPasses(s, source, signal, code);
      case Completed => CompletionPasses(s, source, signal);
    }
  }

  lemma MaterializedLast<V>(history: seq<Event<V>>)
    requires history != []
    ensures
      var last := history[|history| - 1];
      var sent := Materialized(history[..|history| - 1]) + [Next(last)];
      Materialized(history) == if last.Finished() then sent + [Completed] else sent
  {
    Lists.ConcatEmpty(Materialized(history[..|history| - 1]) + [Next(history[|history| - 1])]);
  }

  lemma FrontNotEnded<V>(history: seq<Event<V>>)
    requires Grammar(history) && history != []
    ensures Grammar(history[..|history| - 1]) && !Ended(history[..|history| - 1])
  {
  }

  /** Through the bind machine and its array of signals, every grammatical history comes back unchanged. */
  lemma {:induction false} DematerializeUndoesMaterialize<V>(
    history: seq<Event<V>>, source: Object, signals: nat -> Object)
    requires Grammar(history) && forall k :: signals(k) != source
    ensures
      var r := Dematerialized(Materialized(history), source, signals);
      r.out.received == history && if Ended(history) then Closed(r) else Resting(r, source)
    decreases |history|
  {
    if history != [] {
      var front, last := history[..|history| - 1], history[|history| - 1];
      FrontNotEnded(history);
      DematerializeUndoesMaterialize(front, source, signals);
      EventPasses(Materialized(front), last, source, signals);
      MaterializedLast(history);
      Lists.FrontAndLast(history);
      if last.Finished() { NothingAfterClosing(Materialized(front) + [Next(last)], source, signals); }
    }
  }
}
