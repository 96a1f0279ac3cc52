/** -flatten: and -concat: at most `maxConcurrent` inner subscriptions at a time, the rest queued. */
module Flatten {
  import Lists
  import opened Options
  import opened RacEvents

  /**
   * Inner signals are numbered in order of arrival. `active` has an entry for each running
   * subscription, `queued` the signals waiting, and `started` the signals a callback has admitted
   * or taken off the queue but not yet subscribed to: that happens after it has left the lock.
   * `admitted` is the one of them that the receiver's own callback is about to subscribe to; until
   * that callback is over the receiver, like every signal, sends nothing else. `done` (who completed) and
   * `sent` (what was sent, and by whom, while anyone listened) are history.
   */
  datatype State<V> = State(
    max: nat,
    arrived: nat,
    active: seq<nat>,
    queued: seq<nat>,
    started: seq<nat>,
    admitted: Option<nat>,
    selfCompleted: bool,
    failed: bool,
    done: set<nat>,
    sent: seq<(nat, V)>,
    out: Subscriber<V>)

  function Initial<V>(max: nat): State<V> {
    State(max, 0, [], [], [], None, false, false, {}, [], NewSubscriber())
  }

  /** Each step is one section under the lock, or one event passed on. */
  datatype Step<V> =
    | Arrive
    | Subscribe(id: nat)
    | ReceiverDone
    | ReceiverFailed(error: ErrorCode)
    | InnerNext(id: nat, value: V)
    | InnerFailed(id: nat, error: ErrorCode)
    | InnerDone(id: nat)

  function Remove(xs: seq<nat>, x: nat): (r: seq<nat>)
    ensures |r| == if x in xs then |xs| - 1 else |xs|
  {
    if xs == [] then []
    else if xs[0] == x then xs[1..]
    else [xs[0]] + Remove(xs[1..], x)
  }

  function Count(xs: seq<nat>, x: nat): nat {
    if xs == [] then 0 else (if xs[0] == x then 1 else 0) + Count(xs[1..], x)
  }

  lemma {:induction false} CountIn(xs: seq<nat>, x: nat)
    ensures x in xs <==> Count(xs, x) > 0
  {
    if xs != [] {
      CountIn(xs[1..], x);
      assert x in xs <==> x == xs[0] || x in xs[1..];
    }
  }

  lemma {:induction false} CountSnoc(xs: seq<nat>, x: nat, y: nat)
    ensures Count(xs + [x], y) == Count(xs, y) + if x == y then 1 else 0
  {
    if xs == [] {
      assert [x][1..] == [];
    } else {
      assert (xs + [x])[1..] == xs[1..] + [x];
      CountSnoc(xs[1..], x, y);
    }
  }

  lemma {:induction false} CountRemove(xs: seq<nat>, x: nat, y: nat)
    requires x in xs
    ensures Count(Remove(xs, x), y) + (if x == y then 1 else 0) == Count(xs, y)
  {
    if xs[0] != x {
      var r := Remove(xs[1..], x);
      assert ([xs[0]] + r)[1..] == r;
      CountRemove(xs[1..], x, y);
    }
  }

  function CompleteIfAllowed<V>(s: State<V>): State<V> {
    if s.selfCompleted && s.active == [] then s.(out := s.out.Send(Completed)) else s
  }

  function Full<V>(s: State<V>): bool {
    s.max > 0 && |s.active| >= s.max
  }

  /** The receiver has completed, or is in the middle of its `next` callback. */
  predicate ReceiverSilent<V>(s: State<V>) {
    s.selfCompleted || s.admitted.Some?
  }

  function Apply<V>(s: State<V>, step: Step<V>): State<V> {
    match step
    case Arrive =>
      if ReceiverSilent(s) then s
      else if Full(s) then s.(arrived := s.arrived + 1, queued := s.queued + [s.arrived])
      else s.(arrived := s.arrived + 1, started := s.started + [s.arrived], admitted := Some(s.arrived))
    case Subscribe(id) =>
      if id !in s.started then s
      else
        s.(started := Remove(s.started, id), active := s.active + [id],
           admitted := if s.admitted == Some(id) then None else s.admitted)
    case ReceiverDone => if ReceiverSilent(s) then s else CompleteIfAllowed(s.(selfCompleted := true))
    case ReceiverFailed(e) => if ReceiverSilent(s) then s else s.(failed := true, out := s.out.Send(Error(e)))
    case InnerNext(id, v) =>
      if id !in s.active || s.out.disposed then s else s.(sent := s.sent + [(id, v)], out := s.out.Send(Next(v)))
    case InnerFailed(id, e) => if id !in s.active then s else s.(failed := true, out := s.out.Send(Error(e)))
    case InnerDone(id) =>
      if id !in s.active then s
      else
        var t := s.(active := Remove(s.active, id), done := s.done + {id});
        if t.queued == [] then CompleteIfAllowed(t)
        else t.(queued := t.queued[1..], started := t.started + [t.queued[0]])
  }

  function Run<V>(s: State<V>, steps: seq<Step<V>>): State<V>
    decreases |steps|
  {
    if steps == [] then s else Run(Apply(s, steps[0]), steps[1..])
  }

  // ----- what every interleaving of the sections keeps

  /** How often signal `i` is queued, about to be subscribed to, active or completed. */
  ghost function Places<V>(s: State<V>, i: nat): nat {
    Count(s.queued, i) + Count(s.started, i) + Count(s.active, i) + (if i in s.done then 1 else 0)
  }

  /** Slots taken: running subscriptions and those about to run. */
  function Committed<V>(s: State<V>): nat {
    |s.active| + |s.started|
  }

  /**
   * Every arrived signal is in exactly one of the four places, and no other signal is in any;
   * a signal waits only while every slot is taken.
   */
  ghost predicate Partition<V>(s: State<V>) {
    && (forall i: nat :: Places(s, i) == if i < s.arrived then 1 else 0)
    && (s.queued != [] ==> s.max > 0 && Committed(s) >= s.max)
  }

  function Seconds<V>(sent: seq<(nat, V)>): seq<V> {
    if sent == [] then [] else Seconds(sent[..|sent| - 1]) + [sent[|sent| - 1].1]
  }

  /** The output carries the values sent, in the order they were sent. */
  ghost predicate Faithful<V>(s: State<V>) {
    && s.out.Valid() && Values(s.out.received) == Seconds(s.sent)
    && (s.out.disposed && !s.failed ==> |s.out.received| > 0 && s.out.received[|s.out.received| - 1] == Completed)
  }

  lemma FaithfulSend<V>(s: State<V>, e: Event<V>, failed: bool)
    requires Faithful(s) && !e.Next? && failed == (s.failed || e.Error?)
    ensures Faithful(s.(failed := failed, out := s.out.Send(e)))
  {
    if !s.out.disposed {
      ValuesAppend(s.out.received, [e]);
      assert Values([e]) == [] + Values<V>([]);
    }
  }

  lemma FaithfulNext<V>(s: State<V>, id: nat, v: V)
    requires Faithful(s) && !s.out.disposed
    ensures Faithful(s.(sent := s.sent + [(id, v)], out := s.out.Send(Next(v))))
  {
    ValuesAppend(s.out.received, [Next(v)]);
    assert Values([Next(v)]) == [v] + Values<V>([]);
    assert (s.sent + [(id, v)])[..|s.sent|] == s.sent;
  }

  lemma PlacesArrive<V>(s: State<V>, i: nat)
    ensures Places(Apply(s, Arrive), i) == Places(s, i) + if i == s.arrived && !ReceiverSilent(s) then 1 else 0
  {
    CountSnoc(s.started, s.arrived, i);
    CountSnoc(s.queued, s.arrived, i);
  }

  lemma PlacesSubscribe<V>(s: State<V>, id: nat, i: nat)
    ensures Places(Apply(s, Subscribe(id)), i) == Places(s, i)
  {
    if id in s.started {
      CountRemove(s.started, id, i);
      CountSnoc(s.active, id, i);
    }
  }

  lemma PlacesDone<V>(s: State<V>, id: nat, i: nat)
    requires Places(s, id) <= 1
    ensures Places(Apply(s, InnerDone(id)), i) == Places(s, i)
  {
    if id in s.active {
      CountIn(s.active, id);
      CountRemove(s.active, id, i);
      if s.queued != [] { CountSnoc(s.started, s.queued[0], i); }
    }
  }

  /** A step moves a signal between the four places; only an arrival adds one. */
  lemma PlacesStep<V>(s: State<V>, step: Step<V>, i: nat)
    requires step.InnerDone? ==> Places(s, step.id) <= 1
    ensures Places(Apply(s, step), i)
      == Places(s, i) + if i == s.arrived && Apply(s, step).arrived > s.arrived then 1 else 0
  {
    match step
    case Arrive => PlacesArrive(s, i);
    case Subscribe(id) => PlacesSubscribe(s, id, i);
    case InnerDone(id) => PlacesDone(s, id, i);
    case _ =>
  }

  lemma PartitionStep<V>(s: State<V>, step: Step<V>)
    requires Partition(s)
    ensures Partition(Apply(s, step))
  {
    var s' := Apply(s, step);
    if step.InnerDone? { assert Places(s, step.id) == if step.id < s.arrived then 1 else 0; }
    forall i: nat ensures Places(s', i) == if i < s'.arrived then 1 else 0 {
      assert Places(s, i) == if i < s.arrived then 1 else 0;
      PlacesStep(s, step, i);
    }
  }

  /** Faithfulness is about what was sent and whether a signal failed. */
  lemma FaithfulSame<V>(s: State<V>, t: State<V>)
    requires Faithful(s) && t.out == s.out && t.sent == s.sent && t.failed == s.failed
    ensures Faithful(t)
  {
  }

  lemma FaithfulFailed<V>(s: State<V>, step: Step<V>)
    requires Faithful(s) && (step.InnerFailed? || step.ReceiverFailed?)
    ensures Faithful(Apply(s, step))
  {
    if Apply(s, step) != s { FaithfulSend(s, Error(step.error), true); }
  }

  lemma FaithfulSends<V>(s: State<V>, id: nat, v: V)
    requires Faithful(s)
    ensures Faithful(Apply(s, InnerNext(id, v)))
  {
    if id in s.active && !s.out.disposed { FaithfulNext(s, id, v); }
  }

  lemma FaithfulReceiverDone<V>(s: State<V>)
    requires Faithful(s)
    ensures Faithful(Apply(s, ReceiverDone))
  {
    if !ReceiverSilent(s) { FaithfulCompletes(s, s.(selfCompleted := true)); }
  }

  lemma FaithfulCompletes<V>(s: State<V>, t: State<V>)
    requires Faithful(s) && t.out == s.out && t.sent == s.sent && t.failed == s.failed
    ensures Faithful(CompleteIfAllowed(t))
  {
    FaithfulSame(s, t);
    FaithfulSend(t, Completed, t.failed);
  }

  lemma FaithfulDone<V>(s: State<V>, id: nat)
    requires Faithful(s)
    ensures Faithful(Apply(s, InnerDone(id)))
  {
    if id in s.active {
      var t := s.(active := Remove(s.active, id), done := s.done + {id});
      if t.queued == [] { FaithfulCompletes(s, t); } else { FaithfulSame(s, Apply(s, InnerDone(id))); }
    }
  }

  lemma FaithfulStep<V>(s: State<V>, step: Step<V>)
    requires Faithful(s)
    ensures Faithful(Apply(s, step))
  {
    match step
    case InnerNext(id, v) => FaithfulSends(s, id, v);
    case InnerFailed(_, _) => FaithfulFailed(s, step);
    case ReceiverFailed(_) => FaithfulFailed(s, step);
    case ReceiverDone => FaithfulReceiverDone(s);
    case InnerDone(id) => FaithfulDone(s, id);
    case Arrive => FaithfulSame(s, Apply(s, step));
    case Subscribe(_) => FaithfulSame(s, Apply(s, step));
  }

  /** Over every run, whatever the interleaving: the partition holds and the output is the merge of what was sent. */
  lemma {:induction false} EveryRun<V>(s: State<V>, steps: seq<Step<V>>)
    requires Partition(s) && Faithful(s)
    ensures Partition(Run(s, steps)) && Faithful(Run(s, steps))
    decreases |steps|
  {
    if steps != [] {
      PartitionStep(s, steps[0]);
      FaithfulStep(s, steps[0]);
      EveryRun(Apply(s, steps[0]), steps[1..]);
    }
  }

  lemma EveryRunFromStart<V>(max: nat, steps: seq<Step<V>>)
    ensures Partition(Run(Initial<V>(max), steps)) && Faithful(Run(Initial<V>(max), steps))
  {
    var s := Initial<V>(max);
    assert forall i: nat :: Places(s, i) == 0;
    EveryRun(s, steps);
  }

  /** The values of one signal among those sent. */
  function ValuesOf<V>(sent: seq<(nat, V)>, id: nat): seq<V> {
    if sent == [] then []
    else
      var last := sent[|sent| - 1];
      ValuesOf(sent[..|sent| - 1], id) + (if last.0 == id then [last.1] else [])
  }

  /** From the steps alone: the values that signal `id` sends in a run while it is subscribed to and someone listens. */
  function Heard<V>(s: State<V>, steps: seq<Step<V>>, id: nat): seq<V>
    decreases |steps|
  {
    if steps == [] then []
    else
      var here :=
        match steps[0]
        case InnerNext(i, v) => if i == id && id in s.active && !s.out.disposed then [v] else []
        case _ => [];
      here + Heard(Apply(s, steps[0]), steps[1..], id)
  }

  lemma ValuesOfStep<V>(s: State<V>, step: Step<V>, id: nat)
    ensures ValuesOf(Apply(s, step).sent, id) == ValuesOf(s.sent, id) + Heard(s, [step], id)
  {
    assert [step][1..] == [];
    if step.InnerNext? && step.id in s.active && !s.out.disposed {
      Lists.WithoutLast(s.sent, (step.id, step.value));
    }
    Lists.ConcatEmpty(if step.InnerNext? then [step.value] else []);
    Lists.ConcatEmpty(ValuesOf(s.sent, id));
  }

  lemma HeardFirst<V>(s: State<V>, steps: seq<Step<V>>, id: nat)
    requires steps != []
    ensures Heard(s, steps, id) == Heard(s, [steps[0]], id) + Heard(Apply(s, steps[0]), steps[1..], id)
  {
    assert [steps[0]][1..] == [];
    Lists.ConcatEmpty(if steps[0].InnerNext? then [steps[0].value] else []);
  }

  lemma {:induction false} HeardRun<V>(s: State<V>, steps: seq<Step<V>>, id: nat)
    ensures ValuesOf(Run(s, steps).sent, id) == ValuesOf(s.sent, id) + Heard(s, steps, id)
    decreases |steps|
  {
    if steps == [] {
      Lists.ConcatEmpty(ValuesOf(s.sent, id));
    } else {
      HeardFirst(s, steps, id);
      ValuesOfStep(s, steps[0], id);
      HeardRun(Apply(s, steps[0]), steps[1..], id);
      Lists.ConcatAssociates(
        ValuesOf(s.sent, id), Heard(s, [steps[0]], id), Heard(Apply(s, steps[0]), steps[1..], id));
    }
  }

  /** In every run the output is a merge: what it carries of each signal is what that signal sent, in order. */
  lemma MergesEachSignal<V>(max: nat, steps: seq<Step<V>>, id: nat)
    ensures
      var s := Run(Initial<V>(max), steps);
      Values(s.out.received) == Seconds(s.sent) && ValuesOf(s.sent, id) == Heard(Initial<V>(max), steps, id)
  {
    EveryRunFromStart(max, steps);
    HeardRun(Initial<V>(max), steps, id);
    Lists.ConcatEmpty(Heard(Initial<V>(max), steps, id));
  }

  /** An error of the receiver, or of a signal that is subscribed to. */
  predicate Fails<V>(s: State<V>, step: Step<V>, e: ErrorCode) {
    match step
    case ReceiverFailed(code) => code == e && !ReceiverSilent(s)
    case InnerFailed(id, code) => code == e && id in s.active
    case _ => false
  }

  lemma {:induction false} ClosedSendsNothing<V>(s: State<V>, steps: seq<Step<V>>)
    requires s.out.disposed
    ensures Run(s, steps).out == s.out
    decreases |steps|
  {
    if steps != [] { ClosedSendsNothing(Apply(s, steps[0]), steps[1..]); }
  }

  /** In every run, unless something terminal has been sent before, an error is sent at once and nothing after it. */
  lemma FailureEndsOutput<V>(max: nat, steps: seq<Step<V>>, step: Step<V>, e: ErrorCode, more: seq<Step<V>>)
    requires Fails(Run(Initial<V>(max), steps), step, e) && !Run(Initial<V>(max), steps).out.disposed
    ensures
      var s := Run(Initial<V>(max), steps);
      Run(Apply(s, step), more).out.received == s.out.received + [Error(e)]
  {
    ClosedSendsNothing(Apply(Run(Initial<V>(max), steps), step), more);
  }

  // ----- the bound and the completion, section by section

  /** Subscribes to every signal about to be subscribed to. */
  function SubscribeAll<V>(s: State<V>): State<V>
    decreases |s.started|
  {
    if s.started == [] then s else SubscribeAll(Apply(s, Subscribe(s.started[0])))
  }

  lemma {:induction false} SubscribeAllCount<V>(s: State<V>)
    ensures |SubscribeAll(s).active| == Committed(s) && SubscribeAll(s).started == []
    decreases |s.started|
  {
    if s.started != [] {
      SubscribeAllCount(Apply(s, Subscribe(s.started[0])));
    }
  }

  /** A signal arrives while the slots are taken, one of them by a dequeued signal not yet subscribed to. */
  predicate EarlyArrival<V>(s: State<V>, step: Step<V>) {
    step.Arrive? && !ReceiverSilent(s) && |s.active| < s.max && Committed(s) == s.max
  }

  /**
   * A step leaves more than `maxConcurrent` subscriptions to come about if and only if it is an
   * arrival that finds a slot which a finished signal has given up and its successor not yet taken.
   */
  lemma BoundBrokenIff<V>(s: State<V>, step: Step<V>)
    requires s.max > 0 && Committed(s) <= s.max
    ensures |SubscribeAll(Apply(s, step)).active| > s.max
      <==> EarlyArrival(s, step)
  {
    SubscribeAllCount(Apply(s, step));
  }

  predicate SomeEarlyArrival<V>(s: State<V>, steps: seq<Step<V>>)
    decreases |steps|
  {
    steps != [] && (EarlyArrival(s, steps[0]) || SomeEarlyArrival(Apply(s, steps[0]), steps[1..]))
  }

  predicate WithinThroughout<V>(s: State<V>, steps: seq<Step<V>>)
    decreases |steps|
  {
    Committed(s) <= s.max && (steps == [] || WithinThroughout(Apply(s, steps[0]), steps[1..]))
  }

  lemma CommittedStep<V>(s: State<V>, step: Step<V>)
    requires s.max > 0 && Committed(s) <= s.max
    ensures Apply(s, step).max == s.max
    ensures Committed(Apply(s, step)) <= s.max <==> !EarlyArrival(s, step)
  {
  }

  /** Over a whole run: the slots are never overcommitted if and only if no signal arrives early. */
  lemma {:induction false} WithinThroughoutIff<V>(s: State<V>, steps: seq<Step<V>>)
    requires s.max > 0 && Committed(s) <= s.max
    ensures WithinThroughout(s, steps) <==> !SomeEarlyArrival(s, steps)
    decreases |steps|
  {
    if steps != [] {
      CommittedStep(s, steps[0]);
      if !EarlyArrival(s, steps[0]) { WithinThroughoutIff(Apply(s, steps[0]), steps[1..]); }
    }
  }

  /** `completed` goes out with every arrived signal done if and only if none was about to be subscribed to. */
  lemma CompletedTooEarlyIff<V>(s: State<V>, step: Step<V>)
    requires Partition(s) && !s.out.disposed
    requires Apply(s, step).out.received == s.out.received + [Completed]
    ensures (forall i: nat :: i < s.arrived ==> i in Apply(s, step).done) <==> s.started == []
  {
    var s' := Apply(s, step);
    PartitionStep(s, step);
    assert s'.out.received[|s.out.received|] == Completed;
    assert s'.active == [] && s'.arrived == s.arrived && s'.started == s.started;
    if s.started != [] {
      var i := s.started[0];
      CountIn(s'.started, i);
      assert Places(s', i) == if i < s'.arrived then 1 else 0;
      assert i < s.arrived && i !in s'.done;
    } else {
      forall i: nat | i < s.arrived ensures i in s'.done {
        assert Places(s', i) == 1;
      }
    }
  }

  predicate AllDone<V>(s: State<V>) {
    forall i :: 0 <= i < s.arrived ==> i in s.done
  }

  /** `completed` is sent, if nothing was before, while a dequeued signal has still to be subscribed to. */
  predicate EarlyCompletion<V>(s: State<V>, step: Step<V>) {
    && !s.out.disposed && s.started != []
    && match step
       case ReceiverDone => !ReceiverSilent(s) && s.active == []
       case InnerDone(id) => id in s.active && |s.active| == 1 && s.queued == [] && s.selfCompleted
       case _ => false
  }

  predicate SomeEarlyCompletion<V>(s: State<V>, steps: seq<Step<V>>)
    decreases |steps|
  {
    steps != [] && (EarlyCompletion(s, steps[0]) || SomeEarlyCompletion(Apply(s, steps[0]), steps[1..]))
  }

  /**
   * Unless a signal has failed, `completed` has been sent exactly when the receiver and all its signals have
   * completed.
   */
  ghost predicate Exact<V>(s: State<V>) {
    !s.failed ==> (Completed in s.out.received <==> s.selfCompleted && AllDone(s))
  }

  ghost predicate ExactThroughout<V>(s: State<V>, steps: seq<Step<V>>)
    decreases |steps|
  {
    Exact(s) && (steps == [] || ExactThroughout(Apply(s, steps[0]), steps[1..]))
  }

  /** Completion is never missed, and closing has a reason. */
  ghost predicate NeverMissed<V>(s: State<V>) {
    && (!s.failed && s.selfCompleted && s.active == [] && s.started == [] ==> s.out.disposed)
    && (s.failed ==> s.out.disposed)
    && (Completed in s.out.received ==> s.selfCompleted && s.out.disposed)
  }

  lemma NeverMissedStep<V>(s: State<V>, step: Step<V>)
    requires NeverMissed(s) && Partition(s)
    ensures NeverMissed(Apply(s, step))
  {
  }

  /** With every signal done none is in another place. */
  lemma AllDoneMeansNoneLeft<V>(s: State<V>)
    requires Partition(s)
    ensures AllDone(s) <==> s.active == [] && s.started == [] && s.queued == []
  {
    if AllDone(s) {
      NobodyIn(s, s.active);
      NobodyIn(s, s.started);
      NobodyIn(s, s.queued);
    } else if s.active == [] && s.started == [] && s.queued == [] {
      forall i: nat | i < s.arrived ensures i in s.done { assert Places(s, i) == 1; }
    }
  }

  lemma InPlaceNotDone<V>(s: State<V>, x: nat)
    requires Partition(s) && (x in s.active || x in s.started || x in s.queued)
    ensures x < s.arrived && x !in s.done
  {
    CountIn(s.active, x);
    CountIn(s.started, x);
    CountIn(s.queued, x);
    assert Places(s, x) == if x < s.arrived then 1 else 0;
  }

  lemma NobodyIn<V>(s: State<V>, place: seq<nat>)
    requires Partition(s) && AllDone(s) && (place == s.active || place == s.started || place == s.queued)
    ensures place == []
  {
    if place != [] { InPlaceNotDone(s, place[0]); }
  }

  /** Exactness survives a step unless it completes early. */
  lemma ExactStep<V>(s: State<V>, step: Step<V>)
    requires Partition(s) && Faithful(s) && NeverMissed(s) && Exact(s)
    ensures Exact(Apply(s, step)) <==> !EarlyCompletion(s, step)
  {
    var t := Apply(s, step);
    PartitionStep(s, step);
    FaithfulStep(s, step);
    NeverMissedStep(s, step);
    AllDoneMeansNoneLeft(s);
    AllDoneMeansNoneLeft(t);
    if step.InnerDone? { RemoveOne(s.active, step.id); }
  }

  lemma RemoveOne(xs: seq<nat>, x: nat)
    ensures x in xs ==> (Remove(xs, x) == [] <==> |xs| == 1)
  {
  }

  /**
   * Over every run of sections: absent errors `completed` has been sent at each point exactly when the
   * receiver and all its signals have completed, if and only if no section completes early.
   */
  lemma {:induction false} ExactThroughoutIff<V>(s: State<V>, steps: seq<Step<V>>)
    requires Partition(s) && Faithful(s) && NeverMissed(s) && Exact(s)
    ensures ExactThroughout(s, steps) <==> !SomeEarlyCompletion(s, steps)
    decreases |steps|
  {
    if steps != [] {
      ExactStep(s, steps[0]);
      if !EarlyCompletion(s, steps[0]) {
        PartitionStep(s, steps[0]);
        FaithfulStep(s, steps[0]);
        NeverMissedStep(s, steps[0]);
        ExactThroughoutIff(Apply(s, steps[0]), steps[1..]);
      }
    }
  }

  lemma CompletesExactlyIff<V>(max: nat, steps: seq<Step<V>>)
    ensures ExactThroughout(Initial<V>(max), steps) <==> !SomeEarlyCompletion(Initial<V>(max), steps)
  {
    assert forall i: nat :: Places(Initial<V>(max), i) == 0;
    ExactThroughoutIff(Initial<V>(max), steps);
  }

  /** The receiver done and signal 0 finished: signal 2 has left the queue and signal 1 is the last one active. */
  lemma HandedOver<V>()
    ensures
      var t := Apply(Apply(TwoAndOneQueued<V>(), ReceiverDone), InnerDone(0));
      t.active == [1] && t.started == [2] && t.queued == [] && t.selfCompleted && t.out == NewSubscriber()
  {
    assert Remove([0, 1], 0) == [1];
    var done := Apply(TwoAndOneQueued<V>(), ReceiverDone);
    assert done == TwoAndOneQueued<V>().(selfCompleted := true);
  }

  lemma LastActiveCompletes<V>(s: State<V>, id: nat)
    requires s.active == [id] && s.queued == [] && s.selfCompleted && s.out == NewSubscriber()
    ensures
      var t := Apply(s, InnerDone(id));
      t.out.received == [Completed] && t.out.disposed && t.started == s.started
  {
    assert Remove([id], id) == [];
  }

  lemma LateValueIsLost<V>(s: State<V>, id: nat, v: V)
    requires s.out.disposed
    ensures Apply(Apply(s, Subscribe(id)), InnerNext(id, v)).out == s.out
  {
  }

  /** The handoff is visible: with two slots, signal 2 has left the queue when the last active one finishes. */
  lemma CompletedWithASignalToCome<V>(v: V)
    ensures
      var t := Apply(Apply(Apply(TwoAndOneQueued<V>(), ReceiverDone), InnerDone(0)), InnerDone(1));
      t.out.received == [Completed] && t.started == [2] && Apply(Apply(t, Subscribe(2)), InnerNext(2, v)).out == t.out
  {
    var handed := Apply(Apply(TwoAndOneQueued<V>(), ReceiverDone), InnerDone(0));
    HandedOver<V>();
    LastActiveCompletes(handed, 1);
    LateValueIsLost(Apply(handed, InnerDone(1)), 2, v);
  }

  /** A signal that arrives between a dequeue and its subscription makes one subscription too many. */
  lemma ArrivalAfterHandover<V>(s: State<V>, id: nat)
    requires |s.active| == s.max > 0 && s.queued != [] && s.started == [] && id in s.active && !ReceiverSilent(s)
    ensures |SubscribeAll(Apply(Apply(s, InnerDone(id)), Arrive)).active| == s.max + 1
  {
    SubscribeAllCount(Apply(Apply(s, InnerDone(id)), Arrive));
  }

  lemma ThreeUnderABoundOfTwo<V>()
    ensures |SubscribeAll(Apply(Apply(TwoAndOneQueued<V>(), InnerDone(0)), Arrive)).active| == 3
  {
    ArrivalAfterHandover(TwoAndOneQueued<V>(), 0);
  }

  /** With two slots: signals 0 and 1 are active, 2 is queued. */
  function TwoAndOneQueued<V>(): (s: State<V>)
    ensures s == Apply(Two(Initial(2)), Arrive)
  {
    assert Remove([0], 0) == [] && Remove([1], 1) == [];
    State(2, 3, [0, 1], [2], [], None, false, false, {}, [], NewSubscriber())
  }

  function Two<V>(s: State<V>): State<V> {
    Apply(Apply(Apply(Apply(s, Arrive), Subscribe(s.arrived)), Arrive), Subscribe(s.arrived + 1))
  }

  // ----- when a callback's sections are not interrupted

  /** A whole callback: its step and the subscription it leads to. */
  function Callback<V>(s: State<V>, step: Step<V>): State<V> {
    SubscribeAll(Apply(s, step))
  }

  function Callbacks<V>(s: State<V>, steps: seq<Step<V>>): State<V>
    decreases |steps|
  {
    if steps == [] then s else Callbacks(Callback(s, steps[0]), steps[1..])
  }

  /**
   * Between callbacks: at most `max` active, all slots taken while anything waits, and the queue is the latest
   * arrivals.
   */
  ghost predicate InOrder<V>(s: State<V>) {
    && s.started == [] && s.admitted == None
    && (s.max > 0 ==> |s.active| <= s.max)
    && (s.queued != [] ==> |s.active| == s.max > 0)
    && |s.queued| <= s.arrived && (forall k :: 0 <= k < |s.queued| ==> s.queued[k] == s.arrived - |s.queued| + k)
    && (!s.failed ==> (s.out.disposed <==> s.selfCompleted && s.active == []))
  }

  ghost predicate Settled<V>(s: State<V>) {
    Partition(s) && Faithful(s) && InOrder(s)
  }

  lemma CallbackUnfolds<V>(s: State<V>, step: Step<V>)
    requires s.started == [] && s.admitted == None
    ensures
      var t := Apply(s, step);
      && |t.started| <= 1
      && Callback(s, step) ==
        if t.started == [] then t else t.(started := [], admitted := None, active := t.active + [t.started[0]])
  {
    var t := Apply(s, step);
    if t.started != [] {
      var id := t.started[0];
      assert t.started == [id] && Remove(t.started, id) == [];
      var u := Apply(t, Subscribe(id));
      assert SubscribeAll(t) == SubscribeAll(u) == u;
    }
  }

  lemma InOrderArrive<V>(s: State<V>)
    requires InOrder(s)
    ensures InOrder(Callback(s, Arrive)) && Callback(s, Arrive).max == s.max
  {
    CallbackUnfolds(s, Arrive);
  }

  lemma InOrderDone<V>(s: State<V>, id: nat)
    requires InOrder(s)
    ensures InOrder(Callback(s, InnerDone(id))) && Callback(s, InnerDone(id)).max == s.max
  {
    CallbackUnfolds(s, InnerDone(id));
  }

  lemma InOrderOther<V>(s: State<V>, step: Step<V>)
    requires InOrder(s) && !step.Arrive? && !step.InnerDone?
    ensures InOrder(Callback(s, step)) && Callback(s, step).max == s.max
  {
    CallbackUnfolds(s, step);
  }

  lemma InOrderStep<V>(s: State<V>, step: Step<V>)
    requires InOrder(s)
    ensures InOrder(Callback(s, step)) && Callback(s, step).max == s.max
  {
    match step
    case Arrive => InOrderArrive(s);
    case InnerDone(id) => InOrderDone(s, id);
    case _ => InOrderOther(s, step);
  }

  lemma SettledStep<V>(s: State<V>, step: Step<V>)
    requires Settled(s)
    ensures Settled(Callback(s, step)) && Callback(s, step).max == s.max
  {
    InOrderStep(s, step);
    CallbackUnfolds(s, step);
    var t := Apply(s, step);
    PartitionStep(s, step);
    FaithfulStep(s, step);
    if t.started != [] {
      PartitionStep(t, Subscribe(t.started[0]));
      assert Remove(t.started, t.started[0]) == [];
    }
  }

  /** Over every run of whole callbacks. */
  lemma {:induction false} SettledRun<V>(s: State<V>, steps: seq<Step<V>>)
    requires Settled(s)
    ensures Settled(Callbacks(s, steps)) && Callbacks(s, steps).max == s.max
    decreases |steps|
  {
    if steps != [] {
      SettledStep(s, steps[0]);
      SettledRun(Callback(s, steps[0]), steps[1..]);
    }
  }

  /** With no error, `completed` has been sent exactly when the receiver and every signal it sent have completed. */
  lemma CompletesExactlyWhenAllDone<V>(max: nat, steps: seq<Step<V>>)
    ensures
      var s := Callbacks(Initial<V>(max), steps);
      && (max > 0 ==> |s.active| <= max)
      && (s.queued != [] ==> |s.active| == max)
      && (!s.failed ==>
        (Completed in s.out.received <==> s.selfCompleted && forall i: nat :: i < s.arrived ==> i in s.done))
  {
    assert forall i: nat :: Places(Initial<V>(max), i) == 0;
    SettledRun(Initial<V>(max), steps);
    var s := Callbacks(Initial<V>(max), steps);
    if Completed in s.out.received { assert Ended(s.out.received); }
    if s.active == [] {
      forall i: nat | i < s.arrived ensures i in s.done { assert Places(s, i) == 1; }
    } else {
      CountIn(s.active, s.active[0]);
      assert Places(s, s.active[0]) == if s.active[0] < s.arrived then 1 else 0;
    }
  }

  // ----- the variables a subscription closes over

  class FlattenSubscription<V> {
    const max: nat
    var active: seq<nat>
    var queued: seq<nat>
    var selfCompleted: bool
    var out: Subscriber<V>
    ghost var arrived: nat
    ghost var started: seq<nat>
    ghost var admitted: Option<nat>
    ghost var failed: bool
    ghost var done: set<nat>
    ghost var sent: seq<(nat, V)>

    ghost function View(): State<V>
      reads this
    {
      State(max, arrived, active, queued, started, admitted, selfCompleted, failed, done, sent, out)
    }

    constructor (max: nat)
      ensures View() == Initial(max)
    {
      this.max := max;
      active, queued, selfCompleted, out := [], [], false, NewSubscriber();
      arrived, started, admitted, failed, done, sent := 0, [], None, false, {}, [];
    }

    /** The receiver sends signal number `id`; the caller subscribes to it next if `admits`. */
    method ReceiverSends(id: nat) returns (admits: bool)
      requires id == arrived && !selfCompleted && admitted == None
      modifies this
      ensures View() == Apply(old(View()), Arrive)
      ensures admits <==> started == old(started) + [id]
    {
      arrived := arrived + 1;
      if max > 0 && |active| >= max {
        queued := queued + [id];
        admits := false;
      } else {
        started, admitted := started + [id], Some(id);
        admits := true;
      }
    }

    method SubscribeTo(id: nat)
      requires id in started
      modifies this
      ensures View() == Apply(old(View()), Subscribe(id))
    {
      started, admitted := Remove(started, id), if admitted == Some(id) then None else admitted;
      active := active + [id];
    }

    /** The whole `next` callback. */
    method OuterNext(id: nat)
      requires id == arrived && !selfCompleted && Settled(View())
      modifies this
      ensures View() == Callback(old(View()), Arrive) && Settled(View())
    {
      ghost var before := View();
      SettledStep(before, Arrive);
      CallbackUnfolds(before, Arrive);
      var admits := ReceiverSends(id);
      if admits {
        SubscribeTo(id);
        assert Remove([id], id) == [];
      }
    }

    method CompleteIfPossible()
      modifies this`out
      ensures View() == CompleteIfAllowed(old(View()))
    {
      if selfCompleted && active == [] { out := out.Send(Completed); }
    }

    method OuterCompleted()
      requires admitted == None
      modifies this
      ensures View() == Apply(old(View()), ReceiverDone)
    {
      if !selfCompleted {
        selfCompleted := true;
        CompleteIfPossible();
      }
    }

    method InnerSends(id: nat, value: V)
      modifies this
      ensures View() == Apply(old(View()), InnerNext(id, value))
    {
      if id in active && !out.disposed {
        sent := sent + [(id, value)];
        out := out.Send(Next(value));
      }
    }

    /** The locked section of a finished signal's callback: the signal taken off the queue, if any. */
    method InnerFinishes(id: nat) returns (next: Option<nat>)
      requires id in active
      modifies this
      ensures View() == Apply(old(View()), InnerDone(id))
      ensures next == if old(queued) == [] then None else Some(old(queued)[0])
    {
      active := Remove(active, id);
      done := done + {id};
      if queued == [] {
        CompleteIfPossible();
        next := None;
      } else {
        next := Some(queued[0]);
        started := started + [queued[0]];
        queued := queued[1..];
      }
    }

    /** The whole `completed` callback of an inner signal. */
    method InnerCompleted(id: nat)
      requires id in active && Settled(View())
      modifies this
      ensures View() == Callback(old(View()), InnerDone(id)) && Settled(View())
    {
      ghost var before := View();
      SettledStep(before, InnerDone(id));
      CallbackUnfolds(before, InnerDone(id));
      var next := InnerFinishes(id);
      if next.Some? {
        SubscribeTo(next.value);
        assert Remove([next.value], next.value) == [];
      }
    }

    /** An error from the receiver (`id` is None) or from an active signal. */
    method SendsError(id: Option<nat>, error: ErrorCode)
      requires id.None? ==> admitted == None
      modifies this
      ensures View() == Apply(old(View()), if id.None? then ReceiverFailed(error) else InnerFailed(id.value, error))
    {
      if (id.None? && !selfCompleted) || (id.Some? && id.value in active) {
        failed := true;
        out := out.Send(Error(error));
      }
    }
  }
}
