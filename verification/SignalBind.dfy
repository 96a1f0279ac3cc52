/** -[RACSignal bind:]: one subscription to the source plus one to each signal the block returns. */
module SignalBind {
  import opened Options
  import opened RacEvents

  /** The identity of a signal object; two subscriptions may be to the same object. */
  type Object = nat

  /**
   * `signals` is the array the completion test looks at: an entry for the source and one for each
   * returned signal. `open` are the live inner subscriptions, numbered in order of creation.
   * `subscribing` is true until the call that subscribes to the source returns: only then is there
   * a disposable through which `stop` can end the subscription. Until then a source that has been
   * stopped is `lingering`: it is counted as finished but can go on sending.
   */
  datatype State<V> = State(
    source: Object,
    sourceOpen: bool,
    subscribing: bool,
    lingering: bool,
    signals: seq<Object>,
    open: map<nat, Object>,
    nextId: nat,
    out: Subscriber<V>)

  function Initial<V>(source: Object): State<V> {
    State(source, true, true, false, [source], map[], 0, NewSubscriber())
  }

  /**
   * A returned signal and the end of the source are separate steps, so a block that returns a
   * signal and sets `stop` is `Return` followed by `Stop`, and one that returns nil is `Stop`; the
   * inner signal may send in between. `Subscribed` is the return of the call that subscribes to the
   * source, and whatever the source sends before that it sends from inside the call.
   */
  datatype Step<V> =
    | Return(signal: Object)
    | Stop
    | Subscribed
    | SourceDone
    | SourceError(error: ErrorCode)
    | InnerNext(id: nat, value: V)
    | InnerError(id: nat, error: ErrorCode)
    | InnerDone(id: nat)

  function RemoveAll(xs: seq<Object>, x: Object): (r: seq<Object>)
    ensures forall y :: y in r <==> y in xs && y != x
    ensures r != [] ==> r[0] in xs && r[0] != x
  {
    if xs == [] then []
    else (if xs[0] == x then [] else [xs[0]]) + RemoveAll(xs[1..], x)
  }

  function Close<V>(s: State<V>): State<V> {
    s.(sourceOpen := false, subscribing := false, lingering := false, open := map[])
  }

  /** The code's completion test: drop every entry equal to the finished object, complete if none is left. */
  function CompleteSignal<V>(s: State<V>, finished: Object): State<V> {
    var rest := RemoveAll(s.signals, finished);
    if rest == [] then Close(s.(signals := rest, out := s.out.Send(Completed)))
    else s.(signals := rest)
  }

  function Apply<V>(s: State<V>, step: Step<V>): State<V> {
    match step
    case Return(signal) =>
      if !s.sourceOpen && !s.lingering then s
      else s.(signals := s.signals + [signal], open := s.open[s.nextId := signal], nextId := s.nextId + 1)
    case Stop =>
      if !s.sourceOpen && !s.lingering then s
      else CompleteSignal(s.(sourceOpen := false, lingering := s.subscribing), s.source)
    case Subscribed => s.(subscribing := false, lingering := false)
    case SourceDone =>
      if !s.sourceOpen && !s.lingering then s
      else CompleteSignal(s.(sourceOpen := false, lingering := false), s.source)
    case SourceError(e) =>
      if !s.sourceOpen && !s.lingering then s else Close(s).(out := s.out.Send(Error(e)))
    case InnerNext(id, v) =>
      if id !in s.open then s else s.(out := s.out.Send(Next(v)))
    case InnerError(id, e) =>
      if id !in s.open then s else Close(s).(out := s.out.Send(Error(e)))
    case InnerDone(id) =>
      if id !in s.open then s else CompleteSignal(s.(open := s.open - {id}), s.open[id])
  }

  function Run<V>(s: State<V>, steps: seq<Step<V>>): State<V>
    decreases |steps|
  {
    if steps == [] then s else Run(Apply(s, steps[0]), steps[1..])
  }

  /** Once something terminal has been sent, nothing is subscribed to. */
  ghost predicate ClosesWithOutput<V>(s: State<V>) {
    s.out.disposed ==> !s.sourceOpen && !s.subscribing && !s.lingering && s.open == map[]
  }

  lemma ApplyCloses<V>(s: State<V>, step: Step<V>)
    requires ClosesWithOutput(s)
    ensures ClosesWithOutput(Apply(s, step))
    ensures s.out.disposed ==> Apply(s, step) == s
  {
  }

  lemma {:induction false} RunCloses<V>(s: State<V>, steps: seq<Step<V>>)
    requires ClosesWithOutput(s)
    ensures ClosesWithOutput(Run(s, steps)) && (s.out.disposed ==> Run(s, steps) == s)
    decreases |steps|
  {
    if steps != [] {
      ApplyCloses(s, steps[0]);
      RunCloses(Apply(s, steps[0]), steps[1..]);
    }
  }

  /**
   * Bind never sends to a closed subscriber: in every run, once it has sent an error or completion no
   * subscription of its own is open, and no further step changes anything.
   */
  lemma NothingAfterClosing<V>(source: Object, steps: seq<Step<V>>, more: seq<Step<V>>)
    requires Run(Initial<V>(source), steps).out.disposed
    ensures
      var s := Run(Initial<V>(source), steps);
      !s.sourceOpen && s.open == map[] && Run(s, more) == s
  {
    RunCloses(Initial<V>(source), steps);
    RunCloses(Run(Initial<V>(source), steps), more);
  }

  // ----- the promise: complete exactly when the source and every inner subscription are done

  /**
   * The documented rule, with no array: completion is decided by the open subscriptions themselves,
   * and stopping completes the source.
   */
  function Promise<V>(s: State<V>, step: Step<V>): State<V> {
    match step
    case Return(signal) =>
      if !s.sourceOpen then s else s.(open := s.open[s.nextId := signal], nextId := s.nextId + 1)
    case Subscribed => s
    case SourceError(e) => if !s.sourceOpen then s else Close(s).(out := s.out.Send(Error(e)))
    case InnerNext(id, v) => if id !in s.open then s else s.(out := s.out.Send(Next(v)))
    case InnerError(id, e) => if id !in s.open then s else Close(s).(out := s.out.Send(Error(e)))
    case Stop | SourceDone =>
      if !s.sourceOpen then s
      else if s.open == map[] then Close(s.(out := s.out.Send(Completed)))
      else s.(sourceOpen := false)
    case InnerDone(id) =>
      if id !in s.open then s
      else if !s.sourceOpen && s.open - {id} == map[] then Close(s.(out := s.out.Send(Completed)))
      else s.(open := s.open - {id})
  }

  function RunPromise<V>(s: State<V>, steps: seq<Step<V>>): State<V>
    decreases |steps|
  {
    if steps == [] then s else RunPromise(Promise(s, steps[0]), steps[1..])
  }

  /** What a subscriber can see of a subscription. */
  ghost predicate Same<V>(s: State<V>, p: State<V>) {
    s.source == p.source && s.sourceOpen == p.sourceOpen && s.open == p.open && s.nextId == p.nextId && s.out == p.out
  }

  /** No two open subscriptions, the source's included, are to the same object. */
  ghost predicate Unaliased<V>(s: State<V>) {
    && (forall i, j :: i in s.open && j in s.open && i != j ==> s.open[i] != s.open[j])
    && (s.sourceOpen ==> forall i :: i in s.open ==> s.open[i] != s.source)
  }

  ghost predicate Owned<V>(s: State<V>, x: Object) {
    (s.sourceOpen && x == s.source) || exists i :: i in s.open && s.open[i] == x
  }

  /** While anything is open, the array holds exactly the objects subscribed to, a lingering source aside. */
  ghost predicate Synced<V>(s: State<V>) {
    && (forall i :: i in s.open ==> i < s.nextId)
    && (s.sourceOpen || s.open != map[] ==> forall x :: x in s.signals <==> Owned(s, x))
    && (s.lingering ==> !s.sourceOpen && s.open != map[] && forall i :: i in s.open ==> s.open[i] != s.source)
  }

  /** A stopped source sends a value that the block answers with a signal, or an error. */
  predicate Late<V>(s: State<V>, step: Step<V>) {
    s.lingering && (step.Return? || step.SourceError?)
  }

  predicate NoneLate<V>(s: State<V>, steps: seq<Step<V>>)
    decreases |steps|
  {
    steps == [] || (!Late(s, steps[0]) && NoneLate(Apply(s, steps[0]), steps[1..]))
  }

  lemma InitialSynced<V>(source: Object)
    ensures Synced(Initial<V>(source)) && Unaliased(Initial<V>(source))
  {
    var s := Initial<V>(source);
    forall x ensures x in s.signals <==> Owned(s, x) {}
  }

  lemma ReturnSynced<V>(s: State<V>, signal: Object)
    requires Synced(s) && s.sourceOpen
    ensures Synced(Apply(s, Return(signal)))
  {
    var t := Apply(s, Return(signal));
    forall x ensures x in t.signals <==> Owned(t, x) {
      if x == signal { assert t.open[s.nextId] == x; }
      if i :| i in s.open && s.open[i] == x { assert t.open[i] == x; }
      if i :| i in t.open && t.open[i] == x { assert i == s.nextId || s.open[i] == x; }
    }
  }

  lemma InnerEnds<V>(s: State<V>, id: nat)
    requires Synced(s) && Unaliased(s) && id in s.open
    ensures
      var t := s.(open := s.open - {id});
      && Synced(CompleteSignal(t, s.open[id]))
      && (RemoveAll(t.signals, s.open[id]) == [] <==> !s.sourceOpen && t.open == map[])
  {
    var t := s.(open := s.open - {id});
    forall x ensures Owned(t, x) <==> Owned(s, x) && x != s.open[id] {
      if i :| i in t.open && t.open[i] == x { assert i in s.open && s.open[i] == x; }
      if i :| i in s.open && s.open[i] == x { assert x != s.open[id] ==> i in t.open && t.open[i] == x; }
    }
    CompletionStep(s, t, s.open[id]);
  }

  /** One step from an unaliased state is the promised step, and keeps the array in step with the subscriptions. */
  lemma UnaliasedStep<V>(s: State<V>, p: State<V>, step: Step<V>)
    requires Synced(s) && Unaliased(s) && Same(s, p) && !Late(s, step)
    ensures Synced(Apply(s, step)) && Same(Apply(s, step), Promise(p, step))
  {
    match step
    case Return(signal) => if s.sourceOpen { ReturnSynced(s, signal); }
    case Stop => if s.sourceOpen || s.lingering { SourceEnds(s, s.subscribing); }
    case SourceDone => if s.sourceOpen || s.lingering { SourceEnds(s, false); }
    case InnerDone(id) => if id in s.open { InnerEnds(s, id); }
    case _ => OwnedSame(s, Apply(s, step));
  }

  lemma OwnedSame<V>(s: State<V>, t: State<V>)
    requires Synced(s) && (t.lingering ==> s.lingering)
    requires t.source == s.source && t.signals == s.signals && t.nextId == s.nextId
    requires (t.open == s.open && t.sourceOpen == s.sourceOpen) || (t.open == map[] && !t.sourceOpen && !t.lingering)
    ensures Synced(t)
  {
    forall x | t.sourceOpen || t.open != map[] ensures x in t.signals <==> Owned(t, x) {
      assert Owned(t, x) == Owned(s, x);
    }
  }

  lemma SourceEnds<V>(s: State<V>, lingering: bool)
    requires Synced(s) && Unaliased(s) && (s.sourceOpen || s.lingering)
    ensures
      var t := s.(sourceOpen := false, lingering := lingering);
      && Synced(CompleteSignal(t, s.source))
      && (RemoveAll(t.signals, s.source) == [] <==> s.open == map[])
  {
    var t := s.(sourceOpen := false, lingering := lingering);
    forall x ensures Owned(t, x) <==> Owned(s, x) && x != s.source {}
    CompletionStep(s, t, s.source);
  }

  lemma CompletionStep<V>(s: State<V>, t: State<V>, finished: Object)
    requires Synced(s) && t == s.(sourceOpen := t.sourceOpen, lingering := t.lingering, open := t.open)
    requires s.sourceOpen || s.open != map[]
    requires forall i :: i in t.open ==> i in s.open && t.open[i] == s.open[i]
    requires t.lingering ==> !t.sourceOpen && forall i :: i in t.open ==> t.open[i] != t.source
    requires forall x :: Owned(t, x) <==> Owned(s, x) && x != finished
    ensures Synced(CompleteSignal(t, finished))
    ensures (RemoveAll(t.signals, finished) == []) <==> (!t.sourceOpen && t.open == map[])
  {
    var rest := RemoveAll(t.signals, finished);
    forall x ensures x in rest <==> Owned(t, x) {}
    if t.sourceOpen { assert Owned(t, t.source); }
    if t.open != map[] {
      var i :| i in t.open;
      assert Owned(t, t.open[i]);
    }
    if rest != [] { assert Owned(t, rest[0]); }
    var s' := CompleteSignal(t, finished);
    forall x | s'.sourceOpen || s'.open != map[] ensures x in s'.signals <==> Owned(s', x) {
      assert Owned(s', x) == Owned(t, x);
    }
  }

  /** Every state of the run, the last one included, is unaliased. */
  ghost predicate RunUnaliased<V>(s: State<V>, steps: seq<Step<V>>)
    decreases |steps|
  {
    Unaliased(s) && (steps == [] || RunUnaliased(Promise(s, steps[0]), steps[1..]))
  }

  /** A run that never has two open subscriptions to one object completes exactly as promised. */
  lemma {:induction false} UnaliasedRunKeepsPromise<V>(s: State<V>, p: State<V>, steps: seq<Step<V>>)
    requires Synced(s) && Same(s, p) && RunUnaliased(p, steps) && NoneLate(s, steps)
    ensures Same(Run(s, steps), RunPromise(p, steps)) && Synced(Run(s, steps))
    decreases |steps|
  {
    if steps != [] {
      UnaliasedStep(s, p, steps[0]);
      UnaliasedRunKeepsPromise(Apply(s, steps[0]), Promise(p, steps[0]), steps[1..]);
    }
  }

  // ----- and it fails from every aliased state

  /** Inner subscription `i` shares its object with another open one or with the open source. */
  ghost predicate AliasedAt<V>(s: State<V>, i: nat) {
    i in s.open && (
      (s.sourceOpen && s.source == s.open[i])
      || exists j :: j in s.open && j != i && s.open[j] == s.open[i])
  }

  /** The array still counts object `x`, and no object that is not subscribed to. */
  ghost predicate Counts<V>(s: State<V>, x: Object) {
    x in s.signals && forall y :: y in s.signals ==> Owned(s, y)
  }

  predicate Ending<V>(step: Step<V>) {
    step.SourceDone? || step.InnerDone?
  }

  /** Subscriptions only end: nothing new is returned and nothing is sent. */
  predicate OnlyEndings<V>(steps: seq<Step<V>>) {
    forall k :: 0 <= k < |steps| ==> Ending(steps[k])
  }

  /** Ends every subscription to an object other than `x`; nothing completes on either side. */
  lemma {:induction false} EndTheOthers<V>(s: State<V>, p: State<V>, x: Object) returns (steps: seq<Step<V>>)
    requires Same(s, p) && Counts(s, x) && exists i :: i in s.open && s.open[i] == x
    ensures OnlyEndings(steps)
    ensures Same(Run(s, steps), RunPromise(p, steps)) && Counts(Run(s, steps), x) && Run(s, steps).out == s.out
    ensures Run(s, steps).sourceOpen == (s.sourceOpen && s.source == x) && Run(s, steps).source == s.source
    ensures Run(s, steps).open == map i | i in s.open && s.open[i] == x :: x
    decreases s.sourceOpen, s.open.Keys
  {
    if s.sourceOpen && s.source != x {
      EndOne(s, p, x, SourceDone);
      var rest := EndTheOthers(Apply(s, SourceDone), Promise(p, SourceDone), x);
      steps := [SourceDone] + rest;
    } else if k :| k in s.open && s.open[k] != x {
      EndOne(s, p, x, InnerDone(k));
      var i :| i in s.open && s.open[i] == x;
      assert i in Apply(s, InnerDone(k)).open;
      var rest := EndTheOthers(Apply(s, InnerDone(k)), Promise(p, InnerDone(k)), x);
      steps := [InnerDone(k)] + rest;
    } else {
      steps := [];
    }
  }

  lemma EndOne<V>(s: State<V>, p: State<V>, x: Object, step: Step<V>)
    requires Same(s, p) && Counts(s, x)
    requires exists i :: i in s.open && s.open[i] == x
    requires (step.SourceDone? && s.sourceOpen && s.source != x)
          || (step.InnerDone? && step.id in s.open && s.open[step.id] != x && (s.sourceOpen ==> s.source == x))
    ensures Same(Apply(s, step), Promise(p, step)) && Counts(Apply(s, step), x)
    ensures Apply(s, step).out == s.out && Apply(s, step).source == s.source
    ensures Apply(s, step).open == if step.SourceDone? then s.open else s.open - {step.id}
    ensures Apply(s, step).sourceOpen == (s.sourceOpen && !step.SourceDone?)
  {
    var i :| i in s.open && s.open[i] == x;
    var finished := if step.SourceDone? then s.source else s.open[step.id];
    var rest := RemoveAll(s.signals, finished);
    assert x in rest;
    var s' := Apply(s, step);
    assert i in s'.open;
    forall y | y in s'.signals ensures Owned(s', y) {
      assert Owned(s, y) && y != finished;
      if k :| k in s.open && s.open[k] == y { assert s'.open[k] == y; }
    }
  }

  /** The array still counts the shared object: end the others, then one that shares it. */
  lemma CountedAliasBreaks<V>(s: State<V>, p: State<V>, i: nat) returns (steps: seq<Step<V>>)
    requires Same(s, p) && AliasedAt(s, i) && Counts(s, s.open[i]) && !s.out.disposed
    ensures OnlyEndings(steps)
    ensures Run(s, steps).out.received == s.out.received + [Completed]
    ensures RunPromise(p, steps).out == s.out
    ensures RunPromise(p, steps).sourceOpen || RunPromise(p, steps).open != map[]
  {
    var x := s.open[i];
    var others := EndTheOthers(s, p, x);
    var s1, p1 := Run(s, others), RunPromise(p, others);
    assert i in s1.open;
    var last: Step<V> := InnerDone(i);
    forall y | y in s1.signals ensures y == x { assert Owned(s1, y); }
    assert RemoveAll(s1.signals, x) == [];
    if !s.sourceOpen || s.source != x {
      var j :| j in s.open && j != i && s.open[j] == x;
      assert j in p1.open - {i};
    }
    RunAppend(s, others, [last]);
    RunPromiseAppend(p, others, [last]);
    steps := others + [last];
    assert Run(s, steps) == Apply(s1, last);
    assert RunPromise(p, steps) == Promise(p1, last);
  }

  /** The array counts something, and nothing that is not subscribed to. */
  ghost predicate Tracked<V>(s: State<V>) {
    && s.signals != [] && (forall y :: y in s.signals ==> Owned(s, y))
    && forall i :: i in s.open ==> i < s.nextId
  }

  /** What is left to a state in which the array has forgotten the object of inner subscription `i`. */
  ghost predicate StillForgets<V>(s: State<V>, t: State<V>, p: State<V>, i: nat)
    requires s.signals != [] && i in s.open
  {
    var rest := RemoveAll(s.signals, s.signals[0]);
    if rest == [] then t.out.received == s.out.received + [Completed]
    else
      && Same(t, p) && Tracked(t) && t.out == s.out && i in t.open && t.open[i] == s.open[i] && t.signals == rest
  }

  lemma EndSourceEntry<V>(s: State<V>, p: State<V>, i: nat)
    requires Same(s, p) && Tracked(s) && i in s.open && s.open[i] !in s.signals && !s.out.disposed
    requires s.sourceOpen && s.signals[0] == s.source
    ensures StillForgets(s, Apply(s, SourceDone), Promise(p, SourceDone), i)
    ensures i in Promise(p, SourceDone).open && Promise(p, SourceDone).out == s.out
  {
    var t := Apply(s, SourceDone);
    if t.signals != [] { RestTracked(s, t, s.source); }
  }

  lemma EndInnerEntry<V>(s: State<V>, p: State<V>, i: nat, k: nat)
    requires Same(s, p) && Tracked(s) && i in s.open && s.open[i] !in s.signals && !s.out.disposed
    requires k in s.open && s.signals[0] == s.open[k]
    ensures StillForgets(s, Apply(s, InnerDone(k)), Promise(p, InnerDone(k)), i)
    ensures i in Promise(p, InnerDone(k)).open && Promise(p, InnerDone(k)).out == s.out
  {
    assert i in s.open - {k};
    var t := Apply(s, InnerDone(k));
    if t.signals != [] { RestTracked(s, t, s.open[k]); }
  }

  lemma RestTracked<V>(s: State<V>, t: State<V>, finished: Object)
    requires Tracked(s) && t.source == s.source
    requires t.signals == RemoveAll(s.signals, finished) && t.signals != []
    requires s.sourceOpen && s.source != finished ==> t.sourceOpen
    requires forall m :: m in s.open && s.open[m] != finished ==> m in t.open && t.open[m] == s.open[m]
    requires forall m :: m in t.open ==> m in s.open && s.nextId <= t.nextId
    ensures Tracked(t)
  {
    forall z | z in t.signals ensures Owned(t, z) {
      assert Owned(s, z) && z != finished;
      if m :| m in s.open && s.open[m] == z { assert t.open[m] == z; }
    }
  }

  /** The subscription through which the first entry of the array is open ends. */
  lemma EndFirstEntry<V>(s: State<V>, p: State<V>, i: nat) returns (step: Step<V>)
    requires Same(s, p) && Tracked(s) && i in s.open && s.open[i] !in s.signals && !s.out.disposed
    ensures Ending(step) && i in Promise(p, step).open && Promise(p, step).out == s.out
    ensures |RemoveAll(s.signals, s.signals[0])| < |s.signals|
    ensures StillForgets(s, Apply(s, step), Promise(p, step), i)
  {
    var y := s.signals[0];
    assert y in s.signals && Owned(s, y);
    RemoveAllShortens(s.signals);
    if s.sourceOpen && y == s.source {
      step := SourceDone;
      EndSourceEntry(s, p, i);
    } else {
      var k :| k in s.open && s.open[k] == y;
      step := InnerDone(k);
      EndInnerEntry(s, p, i, k);
    }
  }

  lemma RemoveAllShortens(xs: seq<Object>)
    requires xs != []
    ensures |RemoveAll(xs, xs[0])| < |xs|
  {
    RemoveAllLength(xs[1..], xs[0]);
  }

  lemma {:induction false} RemoveAllLength(xs: seq<Object>, x: Object)
    ensures |RemoveAll(xs, x)| <= |xs|
  {
    if xs != [] { RemoveAllLength(xs[1..], x); }
  }

  /** The array has forgotten the shared object, one of its subscriptions having ended: end whatever it counts. */
  lemma {:induction false} ForgottenAliasBreaks<V>(s: State<V>, p: State<V>, i: nat) returns (steps: seq<Step<V>>)
    requires Same(s, p) && Tracked(s) && i in s.open && s.open[i] !in s.signals && !s.out.disposed
    ensures OnlyEndings(steps)
    ensures Run(s, steps).out.received == s.out.received + [Completed]
    ensures RunPromise(p, steps).out == s.out
    ensures RunPromise(p, steps).sourceOpen || RunPromise(p, steps).open != map[]
    decreases |s.signals|
  {
    var step := EndFirstEntry(s, p, i);
    if RemoveAll(s.signals, s.signals[0]) == [] {
      steps := [step];
      assert [step][1..] == [];
    } else {
      var rest := ForgottenAliasBreaks(Apply(s, step), Promise(p, step), i);
      steps := [step] + rest;
      assert steps[1..] == rest;
    }
  }

  lemma ReturnTracks<V>(s: State<V>, signal: Object)
    requires Tracked(s)
    ensures Tracked(Apply(s, Return(signal)))
  {
    var t := Apply(s, Return(signal));
    forall z | z in t.signals ensures Owned(t, z) {
      if z in s.signals {
        assert Owned(s, z);
        if m :| m in s.open && s.open[m] == z { assert m in t.open && t.open[m] == z; }
      } else {
        assert t.open[s.nextId] == z;
      }
    }
  }

  lemma EndTracks<V>(s: State<V>, step: Step<V>)
    requires Tracked(s) && (step.Stop? || step.SourceDone? || step.InnerDone?)
    ensures !Apply(s, step).out.disposed ==> Tracked(Apply(s, step))
  {
    var t := Apply(s, step);
    if !t.out.disposed && t != s {
      RestTracked(s, t, if step.InnerDone? then s.open[step.id] else s.source);
    }
  }

  lemma ApplyTracks<V>(s: State<V>, step: Step<V>)
    requires !s.out.disposed ==> Tracked(s)
    requires ClosesWithOutput(s)
    ensures !Apply(s, step).out.disposed ==> Tracked(Apply(s, step))
  {
    if s.out.disposed {
      ApplyCloses(s, step);
    } else {
      match step
      case Return(signal) => ReturnTracks(s, signal);
      case Stop => EndTracks(s, step);
      case SourceDone => EndTracks(s, step);
      case InnerDone(_) => EndTracks(s, step);
      case _ => forall z | z in s.signals ensures Owned(s, z) {}
    }
  }

  lemma {:induction false} RunTracks<V>(s: State<V>, steps: seq<Step<V>>)
    requires ClosesWithOutput(s) && (!s.out.disposed ==> Tracked(s))
    ensures !Run(s, steps).out.disposed ==> Tracked(Run(s, steps))
    decreases |steps|
  {
    if steps != [] {
      ApplyTracks(s, steps[0]);
      ApplyCloses(s, steps[0]);
      RunTracks(Apply(s, steps[0]), steps[1..]);
    }
  }

  /**
   * From every aliased state of every run the subscriptions can end in an order that sends `completed`
   * while one of them is still open, which the promise never does; its later values are lost.
   */
  lemma AliasingBreaksPromise<V>(source: Object, before: seq<Step<V>>, i: nat) returns (steps: seq<Step<V>>)
    requires
      var s := Run(Initial<V>(source), before);
      AliasedAt(s, i) && !s.out.disposed
    ensures OnlyEndings(steps)
    ensures
      var s := Run(Initial<V>(source), before);
      && Run(s, steps).out.received == s.out.received + [Completed]
      && RunPromise(s, steps).out == s.out
      && (RunPromise(s, steps).sourceOpen || RunPromise(s, steps).open != map[])
  {
    var s0 := Initial<V>(source);
    assert Owned(s0, source);
    RunTracks(s0, before);
    var s := Run(s0, before);
    if s.open[i] in s.signals {
      steps := CountedAliasBreaks(s, s, i);
    } else {
      steps := ForgottenAliasBreaks(s, s, i);
    }
  }

  /** The block is not called again, nor does the source fail. */
  predicate NothingNew<V>(steps: seq<Step<V>>) {
    forall k :: 0 <= k < |steps| ==> !steps[k].Return? && !steps[k].SourceError?
  }

  lemma {:induction false} NothingNewStaysUnaliased<V>(s: State<V>, p: State<V>, steps: seq<Step<V>>)
    requires Unaliased(p) && NothingNew(steps)
    ensures RunUnaliased(p, steps) && NoneLate(s, steps)
    decreases |steps|
  {
    if steps != [] {
      NothingNewStaysUnaliased(Apply(s, steps[0]), Promise(p, steps[0]), steps[1..]);
    }
  }

  /** A late signal is subscribed to, so its error gets through; a late error does. */
  lemma LateShows<V>(s: State<V>, p: State<V>, step: Step<V>) returns (ends: seq<Step<V>>)
    requires Synced(s) && ClosesWithOutput(s) && Same(s, p) && Late(s, step)
    ensures NothingNew(ends) && !Same(Apply(s, step), Promise(p, step))
    ensures Run(Apply(s, step), ends).out != RunPromise(Promise(p, step), ends).out
  {
    if step.Return? {
      var failure: Step<V> := InnerError(s.nextId, 0);
      ends := [failure];
      assert [failure][1..] == [];
      assert Apply(Apply(s, step), failure).out.disposed;
    } else {
      ends := [];
    }
  }

  ghost predicate SameThroughout<V>(s: State<V>, p: State<V>, steps: seq<Step<V>>)
    decreases |steps|
  {
    Same(s, p) && (steps == [] || SameThroughout(Apply(s, steps[0]), Promise(p, steps[0]), steps[1..]))
  }

  lemma {:induction false} SameThroughoutIff<V>(s: State<V>, p: State<V>, steps: seq<Step<V>>)
    requires Synced(s) && ClosesWithOutput(s) && Same(s, p) && RunUnaliased(p, steps)
    ensures SameThroughout(s, p, steps) <==> NoneLate(s, steps)
    decreases |steps|
  {
    if steps != [] {
      ApplyCloses(s, steps[0]);
      if Late(s, steps[0]) {
        var ends := LateShows(s, p, steps[0]);
      } else {
        UnaliasedStep(s, p, steps[0]);
        SameThroughoutIff(Apply(s, steps[0]), Promise(p, steps[0]), steps[1..]);
      }
    }
  }

  /**
   * Stopping the source takes effect as promised, over a run without aliases, if and only if a source
   * stopped from inside the call that subscribes to it sends, before the call returns and while some
   * inner signal is running, no error and no value for which the block returns a signal.
   */
  lemma StopTakesEffectIff<V>(source: Object, steps: seq<Step<V>>)
    requires RunUnaliased(Initial(source), steps)
    ensures SameThroughout(Initial(source), Initial(source), steps) <==> NoneLate(Initial(source), steps)
  {
    InitialSynced<V>(source);
    SameThroughoutIff(Initial(source), Initial(source), steps);
  }

  /** The block stops at the first value, and is called for the second although the source was told to end. */
  lemma SendsOnAfterStop<V>(x: Object, y: Object, v: V)
    requires x != 0 && y != 0 && x != y
    ensures
      var s := Apply(Apply(Apply(Initial<V>(0), Return(x)), Stop), Return(y));
      var p := Promise(Promise(Promise(Initial<V>(0), Return(x)), Stop), Return(y));
      && Apply(s, InnerNext(1, v)).out.received == [Next(v)] && Promise(p, InnerNext(1, v)).out.received == []
      && Late(Apply(Apply(Initial<V>(0), Return(x)), Stop), Return(y))
  {
    var stopped := Apply(Apply(Initial<V>(0), Return(x)), Stop);
    StoppedCounts(x);
    assert stopped.lingering && stopped.open == map[0 := x];
    var s := Apply(stopped, Return(y));
    assert s.open == map[0 := x, 1 := y] && s.out == NewSubscriber();
    assert Apply(s, InnerNext(1, v)).out == s.out.Send(Next(v));
    var p := Promise(Promise(Initial<V>(0), Return(x)), Stop);
    assert 0 in Promise(Initial<V>(0), Return(x)).open;
    assert p.open == map[0 := x] && Promise(p, Return(y)) == p && p.out == NewSubscriber();
  }

  lemma StoppedCounts(x: Object)
    requires x != 0
    ensures RemoveAll([0] + [x], 0) == [x]
  {
    var two := [0] + [x];
    assert two[1..] == [x] && two[0] == 0 && [x][1..] == [];
    assert RemoveAll([x], 0) == [x];
  }

  /**
   * After a run without aliases or late values takes one more step, bind keeps its promise however
   * what is open goes on if and only if that step is not late and did not create an alias: the caller's
   * condition is that the block never returns an object that is still subscribed to, and that a source
   * it stops does not send on from inside its own subscription.
   */
  lemma KeepsPromiseIffUnaliased<V>(source: Object, steps: seq<Step<V>>, step: Step<V>)
    requires RunUnaliased(Initial(source), steps) && NoneLate(Initial(source), steps)
    ensures
      var s := Apply(Run(Initial(source), steps), step);
      var p := Promise(RunPromise(Initial(source), steps), step);
      Unaliased(p) && !Late(Run(Initial(source), steps), step)
      <==> forall more :: NothingNew(more) ==> Run(s, more).out == RunPromise(p, more).out
  {
    var s0 := Initial<V>(source);
    InitialSynced<V>(source);
    UnaliasedRunKeepsPromise(s0, s0, steps);
    var a, b := Run(s0, steps), RunPromise(s0, steps);
    UnaliasedAtEnd(s0, steps);
    RunCloses(s0, steps);
    var s, p := Apply(a, step), Promise(b, step);
    if Late(a, step) {
      var more := LateShows(a, b, step);
      assert NothingNew(more) && Run(s, more).out != RunPromise(p, more).out;
    } else {
      UnaliasedStep(a, b, step);
      ApplyCloses(a, step);
      if Unaliased(p) {
        forall more | NothingNew(more) ensures Run(s, more).out == RunPromise(p, more).out {
          NothingNewStaysUnaliased(s, p, more);
          UnaliasedRunKeepsPromise(s, p, more);
        }
      } else {
        var i: nat :| i in p.open && AliasedAt(p, i);
        SameAliases(s, p, i);
        assert Owned(s, s.open[i]);
        var more := CountedAliasBreaks(s, p, i);
        assert NothingNew(more) && Run(s, more).out != RunPromise(p, more).out;
      }
    }
  }

  lemma SameAliases<V>(s: State<V>, p: State<V>, i: nat)
    requires Same(s, p) && AliasedAt(p, i)
    ensures AliasedAt(s, i)
  {
  }

  lemma {:induction false} UnaliasedAtEnd<V>(s: State<V>, steps: seq<Step<V>>)
    requires RunUnaliased(s, steps)
    ensures Unaliased(RunPromise(s, steps))
    decreases |steps|
  {
    if steps != [] {
      UnaliasedAtEnd(Promise(s, steps[0]), steps[1..]);
    }
  }

  lemma {:induction false} RunAppend<V>(s: State<V>, a: seq<Step<V>>, b: seq<Step<V>>)
    ensures Run(s, a + b) == Run(Run(s, a), b)
    decreases |a|
  {
    if a == [] {
      assert a + b == b;
    } else {
      assert (a + b)[1..] == a[1..] + b;
      RunAppend(Apply(s, a[0]), a[1..], b);
    }
  }

  lemma {:induction false} RunPromiseAppend<V>(s: State<V>, a: seq<Step<V>>, b: seq<Step<V>>)
    ensures RunPromise(s, a + b) == RunPromise(RunPromise(s, a), b)
    decreases |a|
  {
    if a == [] {
      assert a + b == b;
    } else {
      assert (a + b)[1..] == a[1..] + b;
      RunPromiseAppend(Promise(s, a[0]), a[1..], b);
    }
  }

  /** flattenMap that returns one signal object for two values: the second subscription's value is lost. */
  lemma SameSignalTwiceLosesValues<V>(x: Object, v: V)
    requires x != 0
    ensures
      var s := Apply(Apply(Apply(Initial<V>(0), Return(x)), Return(x)), SourceDone);
      var p := Promise(Promise(Promise(Initial<V>(0), Return(x)), Return(x)), SourceDone);
      && Apply(Apply(Apply(s, InnerDone(0)), InnerNext(1, v)), InnerDone(1)).out.received == [Completed]
      && Promise(Promise(Promise(p, InnerDone(0)), InnerNext(1, v)), InnerDone(1)).out.received == [Next(v), Completed]
  {
    RemoveAllOf(x);
    var two := Apply(Apply(Initial<V>(0), Return(x)), Return(x));
    assert two.signals == [0, x, x];
    var s := Apply(two, SourceDone);
    assert Apply(s, InnerDone(0)).out.received == [Completed];
  }

  lemma RemoveAllOf(x: Object)
    requires x != 0
    ensures RemoveAll([0, x, x], 0) == [x, x] && RemoveAll([x, x], x) == []
  {
    assert [0, x, x][1..] == [x, x] && [x, x][1..] == [x];
    assert RemoveAll([x], 0) == [x];
    assert RemoveAll([x, x], 0) == [x] + RemoveAll([x], 0);
  }

  /** The closed-over state of one subscription, updated by the callbacks as the code updates it. */
  class BindSubscription<V> {
    const source: Object
    var sourceOpen: bool
    var subscribing: bool
    var lingering: bool
    var signals: seq<Object>
    var open: map<nat, Object>
    var nextId: nat
    var out: Subscriber<V>

    ghost function View(): State<V>
      reads this
    {
      State(source, sourceOpen, subscribing, lingering, signals, open, nextId, out)
    }

    constructor (source: Object)
      ensures View() == Initial(source)
    {
      this.source := source;
      sourceOpen, subscribing, lingering := true, true, false;
      signals, open, nextId, out := [source], map[], 0, NewSubscriber();
    }

    method AddSignal(signal: Object)
      modifies this
      ensures View() == Apply(old(View()), Return(signal))
    {
      if sourceOpen || lingering {
        signals := signals + [signal];
        open := open[nextId := signal];
        nextId := nextId + 1;
      }
    }

    /** The array drops every entry identical to the finished signal. */
    method Remove(finished: Object)
      modifies this`signals
      ensures signals == RemoveAll(old(signals), finished)
    {
      var kept, k := [], |signals|;
      while k > 0
        invariant 0 <= k <= |signals|
        invariant kept == RemoveAll(signals[k..], finished)
      {
        k := k - 1;
        assert signals[k..][1..] == signals[k + 1..];
        if signals[k] != finished { kept := [signals[k]] + kept; }
      }
      assert signals[0..] == signals;
      signals := kept;
    }

    method Complete(finished: Object)
      modifies this
      ensures View() == CompleteSignal(old(View()), finished)
    {
      Remove(finished);
      if signals == [] {
        out := out.Send(Completed);
        CloseAll();
      }
    }

    method SourceCompletes()
      modifies this
      ensures View() == Apply(old(View()), SourceDone)
    {
      if sourceOpen || lingering {
        sourceOpen, lingering := false, false;
        Complete(source);
      }
    }

    /** The block asks to terminate: the source counts as finished, and is disposed of if that can be done yet. */
    method Stops()
      modifies this
      ensures View() == Apply(old(View()), Stop)
    {
      if sourceOpen || lingering {
        sourceOpen, lingering := false, subscribing;
        Complete(source);
      }
    }

    /** The call that subscribes to the source returns, and its disposable is stored. */
    method SourceSubscribed()
      modifies this
      ensures View() == Apply(old(View()), Subscribed)
    {
      subscribing, lingering := false, false;
    }

    method CloseAll()
      modifies this
      ensures View() == Close(old(View()))
    {
      sourceOpen, subscribing, lingering, open := false, false, false, map[];
    }

    method InnerSends(id: nat, value: V)
      modifies this
      ensures View() == Apply(old(View()), InnerNext(id, value))
    {
      if id in open { out := out.Send(Next(value)); }
    }

    method InnerCompletes(id: nat)
      modifies this
      ensures View() == Apply(old(View()), InnerDone(id))
    {
      if id in open {
        var finished := open[id];
        open := open - {id};
        Complete(finished);
      }
    }

    /** An error from the source (`id` is None) or from an inner signal closes every subscription. */
    method Fails(id: Option<nat>, error: ErrorCode)
      modifies this
      ensures View() == Apply(old(View()), if id.None? then SourceError(error) else InnerError(id.value, error))
    {
      if (id.None? && (sourceOpen || lingering)) || (id.Some? && id.value in open) {
        CloseAll();
        out := out.Send(Error(error));
      }
    }
  }
}
