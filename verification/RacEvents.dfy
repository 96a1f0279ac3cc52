/** Events, event histories and the subscriber that every operator forwards to. */
module RacEvents {
  import Lists

  type ErrorCode = int

  /** The three kinds of RACEvent. */
  datatype Event<+V> = Next(value: V) | Error(error: ErrorCode) | Completed {
    predicate Finished() {
      !Next?
    }
  }

  /** The subscription grammar: any number of values, then at most one error or completion. */
  predicate Grammar<V>(history: seq<Event<V>>) {
    forall i :: 0 <= i < |history| - 1 ==> history[i].Next?
  }

  predicate Ended<V>(history: seq<Event<V>>) {
    |history| > 0 && history[|history| - 1].Finished()
  }

  /** The values of a history, in order. */
  function Values<V>(history: seq<Event<V>>): seq<V> {
    if history == [] then []
    else
      (if history[0].Next? then [history[0].value] else []) + Values(history[1..])
  }

  lemma {:induction false} ValuesAppend<V>(h: seq<Event<V>>, g: seq<Event<V>>)
    ensures Values(h + g) == Values(h) + Values(g)
  {
    if h == [] {
      assert h + g == g;
    } else {
      ValuesAppend(h[1..], g);
      assert (h + g)[0] == h[0] && (h + g)[1..] == h[1..] + g;
      var first := if h[0].Next? then [h[0].value] else [];
      assert Values(h + g) == first + Values(h[1..] + g);
      assert first + (Values(h[1..]) + Values(g)) == (first + Values(h[1..])) + Values(g);
    }
  }

  /** A finished event closes the subscription, and a closed subscription receives nothing more. */
  datatype Subscriber<V> = Subscriber(received: seq<Event<V>>, disposed: bool) {
    predicate Valid() {
      Grammar(received) && (Ended(received) ==> disposed)
    }

    function Send(e: Event<V>): Subscriber<V> {
      if disposed then this else Subscriber(received + [e], e.Finished())
    }

    function Dispose(): Subscriber<V> {
      this.(disposed := true)
    }
  }

  function NewSubscriber<V>(): Subscriber<V> {
    Subscriber([], false)
  }

  /** What can happen to a subscriber: the signal sends, or someone disposes of the subscription. */
  datatype Signal<V> = Send(event: Event<V>) | Cancel

  function Deliver<V>(s: Subscriber<V>, run: seq<Signal<V>>): Subscriber<V>
    decreases |run|
  {
    if run == [] then s
    else Deliver(match run[0] case Send(e) => s.Send(e) case Cancel => s.Dispose(), run[1..])
  }

  /** The events of a run up to and including the first finished one, stopping at the first cancellation. */
  function CutOff<V>(run: seq<Signal<V>>): seq<Event<V>> {
    if run == [] || run[0].Cancel? then []
    else if run[0].event.Finished() then [run[0].event]
    else [run[0].event] + CutOff(run[1..])
  }

  lemma {:induction false} ClosedReceivesNothing<V>(s: Subscriber<V>, run: seq<Signal<V>>)
    requires s.disposed
    ensures Deliver(s, run) == s
  {
    if run != [] {
      ClosedReceivesNothing(s, run[1..]);
    }
  }

  /** Over every run, a subscriber receives exactly the events before its closing, as a grammatical history. */
  lemma {:induction false} ForwardsExactlyUntilClosed<V>(s: Subscriber<V>, run: seq<Signal<V>>)
    requires s.Valid() && !s.disposed
    ensures Deliver(s, run).received == s.received + CutOff(run)
    ensures Deliver(s, run).Valid()
    decreases |run|
  {
    if run == [] {
      Lists.ConcatEmpty(s.received);
    } else if run[0].Cancel? {
      ClosedReceivesNothing(s.Dispose(), run[1..]);
      Lists.ConcatEmpty(s.received);
    } else if run[0].event.Finished() {
      ClosedReceivesNothing(s.Send(run[0].event), run[1..]);
    } else {
      var s' := s.Send(run[0].event);
      ForwardsExactlyUntilClosed(s', run[1..]);
      Lists.ConcatAssociates(s.received, [run[0].event], CutOff(run[1..]));
    }
  }

  /** RACPassthroughSubscriber in front of a subscriber that closes on error and completion. */
  class PassthroughSubscriber<V> {
    var received: seq<Event<V>>
    var disposed: bool

    ghost function View(): Subscriber<V>
      reads this
    {
      Subscriber(received, disposed)
    }

    constructor ()
      ensures View() == NewSubscriber()
    {
      received, disposed := [], false;
    }

    method SendNext(value: V)
      modifies this
      ensures View() == old(View()).Send(Next(value))
    {
      if disposed { return; }
      received := received + [Next(value)];
    }

    method SendError(error: ErrorCode)
      modifies this
      ensures View() == old(View()).Send(Error(error))
    {
      if disposed { return; }
      disposed := true;
      received := received + [Error(error)];
    }

    method SendCompleted()
      modifies this
      ensures View() == old(View()).Send(Completed)
    {
      if disposed { return; }
      disposed := true;
      received := received + [Completed];
    }

    method Dispose()
      modifies this
      ensures View() == old(View()).Dispose()
    {
      disposed := true;
    }
  }
}
