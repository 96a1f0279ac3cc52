/**
 * -switchToLatest as the code composes it: the receiver is published through a subject, flattenMap
 * binds each signal it sends, and takeUntil: ends an inner signal when the subject sends again.
 */
module SwitchToLatest {
  import Lists
  import opened Options
  import opened RacEvents
  import opened SignalBind

  datatype SwitchEvent<V> =
    | Received            // the receiver sends a new signal
    | ReceiverDone
    | ReceiverFailed(error: ErrorCode)
    | Inner(step: Step<V>) // one of the inner steps of SignalBind, by inner signal number

  const Receiver: Object := 0

  /** The binding subscribes to a subject, which sends nothing from inside that call. */
  function Published<V>(): State<V> {
    Apply(Initial(Receiver), Subscribed)
  }

  /** takeUntil: builds a new signal for every value received, so its object is always fresh. */
  function Fresh<V>(s: State<V>): Object {
    s.nextId + 1
  }

  /** The triggers of inner signals 0 to n - 1 fire, oldest first, and complete those still open. */
  function Cut<V>(s: State<V>, n: nat): State<V> {
    if n == 0 then s else Apply(Cut(s, n - 1), InnerDone(n - 1))
  }

  /** The subject reaches the binding subscriber first and the older triggers after it. */
  function Handle<V>(s: State<V>, e: SwitchEvent<V>): State<V> {
    match e
    case Received => if s.sourceOpen then Cut(Apply(s, Return(Fresh(s))), s.nextId) else s
    case ReceiverDone => Apply(s, SourceDone)
    case ReceiverFailed(error) => Apply(s, SourceError(error))
    case Inner(step) => if step.InnerNext? || step.InnerError? || step.InnerDone? then Apply(s, step) else s
  }

  function HandleAll<V>(s: State<V>, events: seq<SwitchEvent<V>>): State<V>
    decreases |events|
  {
    if events == [] then s else HandleAll(Handle(s, events[0]), events[1..])
  }

  /** The reference: only the number of the latest signal, while it is still running. */
  datatype Spec<V> = Spec(receiving: bool, latest: Option<nat>, count: nat, out: Subscriber<V>)

  function InitialSpec<V>(): Spec<V> {
    Spec(true, None, 0, NewSubscriber())
  }

  function Follow<V>(p: Spec<V>, e: SwitchEvent<V>): Spec<V> {
    match e
    case Received => if p.receiving then p.(latest := Some(p.count), count := p.count + 1) else p
    case ReceiverDone =>
      if !p.receiving then p
      else if p.latest.None? then p.(receiving := false, out := p.out.Send(Completed))
      else p.(receiving := false)
    case ReceiverFailed(error) =>
      if p.receiving then Spec(false, None, p.count, p.out.Send(Error(error))) else p
    case Inner(InnerNext(id, v)) => if p.latest == Some(id) then p.(out := p.out.Send(Next(v))) else p
    case Inner(InnerError(id, error)) =>
      if p.latest == Some(id) then Spec(false, None, p.count, p.out.Send(Error(error))) else p
    case Inner(InnerDone(id)) =>
      if p.latest != Some(id) then p
      else if p.receiving then p.(latest := None)
      else p.(latest := None, out := p.out.Send(Completed))
    case Inner(_) => p
  }

  function FollowAll<V>(p: Spec<V>, events: seq<SwitchEvent<V>>): Spec<V>
    decreases |events|
  {
    if events == [] then p else FollowAll(Follow(p, events[0]), events[1..])
  }

  function Only(latest: Option<nat>): set<nat> {
    if latest.None? then {} else {latest.value}
  }

  /** Inner signal `i` was built as object `i + 1`, and the array agrees with the subscriptions. */
  ghost predicate Built<V>(s: State<V>) {
    && s.source == Receiver && Synced(s) && !s.subscribing && !s.lingering
    && forall i :: i in s.open ==> s.open[i] == i + 1
  }

  lemma PublishedBuilt<V>()
    ensures Built(Published<V>()) && ClosesWithOutput(Published<V>())
  {
    InitialSynced<V>(Receiver);
    OwnedSame(Initial<V>(Receiver), Published<V>());
  }

  ghost predicate Agree<V>(s: State<V>, p: Spec<V>) {
    && Built(s)
    && s.sourceOpen == p.receiving && s.nextId == p.count && s.out == p.out
    && s.open.Keys == Only(p.latest)
    && (p.out.disposed <==> !p.receiving && p.latest.None?)
  }

  /** Steps of the bind machine on distinct objects are the promised ones, and stay distinct. */
  lemma BuiltStep<V>(s: State<V>, step: Step<V>)
    requires Built(s) && (step.Return? ==> step.signal == Fresh(s))
    ensures Built(Apply(s, step)) && Same(Apply(s, step), Promise(s, step))
  {
    assert Unaliased(s);
    UnaliasedStep(s, s, step);
  }

  /** With the new signal subscribed, cutting removes every older one and sends nothing. */
  lemma {:induction false} CutKeepsNewest<V>(s: State<V>, n: nat)
    requires Built(s) && n < s.nextId && s.nextId - 1 in s.open && s.sourceOpen
    ensures
      var t := Cut(s, n);
      && Built(t) && t.sourceOpen && t.nextId == s.nextId && t.out == s.out
      && t.open.Keys == set i | i in s.open && i >= n
  {
    if n > 0 {
      CutKeepsNewest(s, n - 1);
      BuiltStep(Cut(s, n - 1), InnerDone(n - 1));
    }
  }

  lemma AgreeStep<V>(s: State<V>, p: Spec<V>, e: SwitchEvent<V>)
    requires Agree(s, p)
    ensures Agree(Handle(s, e), Follow(p, e))
  {
    match e {
      case Received =>
        if s.sourceOpen {
          var s1 := Apply(s, Return(Fresh(s)));
          BuiltStep(s, Return(Fresh(s)));
          CutKeepsNewest(s1, s.nextId);
          var t := Cut(s1, s.nextId);
          assert t.open.Keys == {s.nextId};
        }
      case ReceiverDone => BuiltStep(s, SourceDone);
      case ReceiverFailed(error) => BuiltStep(s, SourceError(error));
      case Inner(step) =>
        if !step.Return? { BuiltStep(s, step); }
        if step.InnerDone? && step.id in s.open { assert (s.open - {step.id}).Keys == {}; }
    }
  }

  lemma {:induction false} AgreeRun<V>(s: State<V>, p: Spec<V>, events: seq<SwitchEvent<V>>)
    requires Agree(s, p)
    ensures Agree(HandleAll(s, events), FollowAll(p, events))
    decreases |events|
  {
    if events != [] {
      AgreeStep(s, p, events[0]);
      AgreeRun(Handle(s, events[0]), Follow(p, events[0]), events[1..]);
    }
  }

  /** The composition sends exactly what the reference sends, over every run. */
  lemma SwitchesToLatest<V>(events: seq<SwitchEvent<V>>)
    ensures HandleAll(Published<V>(), events).out == FollowAll(InitialSpec<V>(), events).out
    ensures var s := HandleAll(Published<V>(), events); s.out.disposed <==> !s.sourceOpen && s.open == map[]
    ensures var s := HandleAll(Published<V>(), events); forall i, j :: i in s.open && j in s.open ==> i == j
  {
    PublishedBuilt<V>();
    AgreeRun(Published<V>(), InitialSpec<V>(), events);
    var s, p := HandleAll(Published<V>(), events), FollowAll(InitialSpec<V>(), events);
    assert s.open.Keys == Only(p.latest);
  }

  // ----- between the subscription to the new signal and the end of the old one

  /**
   * The subject's notification, one subscriber at a time: `cutting` are the triggers still to fire. A
   * subscriber may make the receiver send from inside a notification; the nested one, over all
   * triggers there are by then, is through before the outer one goes on.
   */
  datatype Fine<V> = Fine(bind: State<V>, cutting: seq<nat>)

  /** `During` is any other event; a signal sent by the receiver is `Subscribe`. */
  datatype FineEvent<V> = Subscribe | Fire | During(event: SwitchEvent<V>)

  function Upto<V>(s: State<V>, n: nat): (r: seq<nat>)
    ensures forall i :: i in r <==> i < n && i in s.open
  {
    if n == 0 then [] else Upto(s, n - 1) + (if n - 1 in s.open then [n - 1] else [])
  }

  function FineStep<V>(f: Fine<V>, e: FineEvent<V>): Fine<V> {
    match e
    case Subscribe =>
      if !f.bind.sourceOpen then f
      else Fine(Apply(f.bind, Return(Fresh(f.bind))), Upto(f.bind, f.bind.nextId) + f.cutting)
    case Fire => if f.cutting == [] then f else Fine(Apply(f.bind, InnerDone(f.cutting[0])), f.cutting[1..])
    case During(Received) => f
    case During(event) => Fine(Handle(f.bind, event), f.cutting)
  }

  function FineRun<V>(f: Fine<V>, events: seq<FineEvent<V>>): Fine<V>
    decreases |events|
  {
    if events == [] then f else FineRun(FineStep(f, events[0]), events[1..])
  }

  ghost predicate LatestOrCutting<V>(f: Fine<V>) {
    && Built(f.bind) && ClosesWithOutput(f.bind)
    && (forall i :: i in f.bind.open ==> i == f.bind.nextId - 1 || i in f.cutting)
    && (forall i :: i in f.cutting ==> i < f.bind.nextId - 1)
  }

  lemma HandleKeepsBuilt<V>(s: State<V>, event: SwitchEvent<V>)
    requires Built(s) && ClosesWithOutput(s) && !event.Received?
    ensures Built(Handle(s, event)) && ClosesWithOutput(Handle(s, event))
    ensures Handle(s, event).nextId == s.nextId && forall i :: i in Handle(s, event).open ==> i in s.open
  {
    match event
    case ReceiverDone => BuiltStep(s, SourceDone);
    case ReceiverFailed(error) => BuiltStep(s, SourceError(error));
    case Inner(step) => if !step.Return? { BuiltStep(s, step); }
  }

  lemma FineKeeps<V>(f: Fine<V>, e: FineEvent<V>)
    requires LatestOrCutting(f)
    ensures LatestOrCutting(FineStep(f, e))
  {
    match e
    case Subscribe => if f.bind.sourceOpen { BuiltStep(f.bind, Return(Fresh(f.bind))); }
    case Fire =>
      if f.cutting != [] {
        BuiltStep(f.bind, InnerDone(f.cutting[0]));
        assert forall i :: i in f.cutting <==> i == f.cutting[0] || i in f.cutting[1..];
      }
    case During(Received) =>
    case During(event) => HandleKeepsBuilt(f.bind, event);
  }

  lemma {:induction false} FineReachable<V>(f: Fine<V>, events: seq<FineEvent<V>>)
    requires LatestOrCutting(f)
    ensures LatestOrCutting(FineRun(f, events))
    decreases |events|
  {
    if events != [] {
      FineKeeps(f, events[0]);
      FineReachable(FineStep(f, events[0]), events[1..]);
    }
  }

  /** A value or an error, the events that the documentation speaks of. */
  predicate Passed<V>(step: Step<V>) {
    step.InnerNext? || step.InnerError?
  }

  /**
   * A value or an error of a replaced signal gets through exactly while that signal's own trigger is
   * still to fire, so only during a notification.
   */
  lemma StaleEventIffCutting<V>(events: seq<FineEvent<V>>, step: Step<V>)
    requires Passed(step)
    ensures
      var f := FineRun(Fine(Published<V>(), []), events);
      var replaced := step.id != f.bind.nextId - 1;
      (FineStep(f, During(Inner(step))).bind.out != f.bind.out && replaced)
      <==> step.id in f.bind.open && step.id in f.cutting
  {
    PublishedBuilt<V>();
    FineReachable(Fine(Published<V>(), []), events);
  }

  /** A replaced signal gets a value or an error through. */
  predicate Stale<V>(f: Fine<V>, e: FineEvent<V>) {
    e.During? && e.event.Inner? && Passed(e.event.step)
    && e.event.step.id in f.bind.open && e.event.step.id != f.bind.nextId - 1
  }

  predicate NoneStale<V>(f: Fine<V>, events: seq<FineEvent<V>>)
    decreases |events|
  {
    events == [] || (!Stale(f, events[0]) && NoneStale(FineStep(f, events[0]), events[1..]))
  }

  /** The reference takes a notification as a whole. */
  function FollowFine<V>(p: Spec<V>, e: FineEvent<V>): Spec<V> {
    match e
    case Subscribe => Follow(p, Received)
    case Fire => p
    case During(Received) => p
    case During(event) => Follow(p, event)
  }

  /** The same output, but that completion waits for the notification to be over. */
  ghost predicate SameOutput<V>(f: Fine<V>, p: Spec<V>) {
    f.bind.out == p.out || (f.cutting != [] && !f.bind.out.disposed && p.out == f.bind.out.Send(Completed))
  }

  ghost predicate AgreesThroughout<V>(f: Fine<V>, p: Spec<V>, events: seq<FineEvent<V>>)
    decreases |events|
  {
    SameOutput(f, p) &&
    (events == [] || AgreesThroughout(FineStep(f, events[0]), FollowFine(p, events[0]), events[1..]))
  }

  /** The reference has completed while replaced signals are still to be cut. */
  predicate Lagging<V>(f: Fine<V>) {
    !f.bind.sourceOpen && f.bind.open != map[] && f.bind.nextId - 1 !in f.bind.open
  }

  ghost predicate Simulates<V>(f: Fine<V>, p: Spec<V>) {
    && LatestOrCutting(f)
    && f.bind.sourceOpen == p.receiving && f.bind.nextId == p.count
    && p.latest == (if f.bind.nextId - 1 in f.bind.open then Some(f.bind.nextId - 1) else None)
    && (p.out.disposed <==> !p.receiving && p.latest.None?)
    && (if Lagging(f) then !f.bind.out.disposed && p.out == f.bind.out.Send(Completed) else f.bind.out == p.out)
  }

  lemma SimulatedOutput<V>(f: Fine<V>, p: Spec<V>)
    requires Simulates(f, p)
    ensures SameOutput(f, p)
  {
    if Lagging(f) {
      var i :| i in f.bind.open;
      assert i in f.cutting;
    }
  }

  lemma SimulateSubscribe<V>(f: Fine<V>, p: Spec<V>)
    requires Simulates(f, p)
    ensures Simulates(FineStep(f, Subscribe), FollowFine(p, Subscribe))
  {
    FineKeeps(f, Subscribe);
  }

  /** Dropping one open subscription other than the latest can only end a lag. */
  lemma SimulateDrop<V>(f: Fine<V>, g: Fine<V>, p: Spec<V>, id: nat)
    requires Simulates(f, p) && id != f.bind.nextId - 1 && LatestOrCutting(g) && g.bind == Apply(f.bind, InnerDone(id))
    ensures Simulates(g, p)
  {
    BuiltStep(f.bind, InnerDone(id));
    assert forall i :: i in f.bind.open - {id} <==> i in f.bind.open && i != id;
  }

  lemma SimulateLatestDone<V>(f: Fine<V>, p: Spec<V>, id: nat)
    requires Simulates(f, p) && id == f.bind.nextId - 1
    ensures Simulates(FineStep(f, During(Inner(InnerDone(id)))), FollowFine(p, During(Inner(InnerDone(id)))))
  {
    FineKeeps(f, During(Inner(InnerDone(id))));
    BuiltStep(f.bind, InnerDone(id));
  }

  lemma SimulatePassed<V>(f: Fine<V>, p: Spec<V>, step: Step<V>)
    requires Simulates(f, p) && Passed(step) && !Stale(f, During(Inner(step)))
    ensures Simulates(FineStep(f, During(Inner(step))), FollowFine(p, During(Inner(step))))
  {
    FineKeeps(f, During(Inner(step)));
  }

  lemma SimulateReceiver<V>(f: Fine<V>, p: Spec<V>, event: SwitchEvent<V>)
    requires Simulates(f, p) && (event.ReceiverDone? || event.ReceiverFailed?)
    ensures Simulates(FineStep(f, During(event)), FollowFine(p, During(event)))
  {
    FineKeeps(f, During(event));
    if event.ReceiverDone? { BuiltStep(f.bind, SourceDone); }
  }

  lemma SimulateStep<V>(f: Fine<V>, p: Spec<V>, e: FineEvent<V>)
    requires Simulates(f, p) && !Stale(f, e)
    ensures Simulates(FineStep(f, e), FollowFine(p, e))
  {
    match e
    case Subscribe => SimulateSubscribe(f, p);
    case Fire =>
      if f.cutting != [] {
        FineKeeps(f, e);
        Lists.HeadIn(f.cutting);
        SimulateDrop(f, FineStep(f, e), p, f.cutting[0]);
      }
    case During(Received) =>
    case During(Inner(step)) =>
      if Passed(step) {
        SimulatePassed(f, p, step);
      } else if step.InnerDone? {
        FineKeeps(f, e);
        if step.id == f.bind.nextId - 1 { SimulateLatestDone(f, p, step.id); }
        else { SimulateDrop(f, FineStep(f, e), p, step.id); }
      }
    case During(event) => SimulateReceiver(f, p, event);
  }

  /** What a stale event sends is not in the reference's output, and a completion does not make up for it. */
  lemma StaleShows<V>(f: Fine<V>, p: Spec<V>, e: FineEvent<V>)
    requires Simulates(f, p) && Stale(f, e)
    ensures !SameOutput(FineStep(f, e), FollowFine(p, e))
  {
    var g := FineStep(f, e);
    assert !f.bind.out.disposed;
    assert |g.bind.out.received| == |f.bind.out.received| + 1;
    assert FollowFine(p, e) == p;
    assert g.bind.out.received[|f.bind.out.received|] != Completed;
    if Lagging(f) { assert p.out.received[|f.bind.out.received|] == Completed; }
  }

  /**
   * With notifications taken one subscriber at a time, and nested, the composition's output is the
   * documented one throughout if and only if no replaced signal gets a value or an error through.
   */
  lemma {:induction false} AgreesIff<V>(f: Fine<V>, p: Spec<V>, events: seq<FineEvent<V>>)
    requires Simulates(f, p)
    ensures AgreesThroughout(f, p, events) <==> NoneStale(f, events)
    decreases |events|
  {
    SimulatedOutput(f, p);
    if events != [] {
      if Stale(f, events[0]) {
        StaleShows(f, p, events[0]);
      } else {
        SimulateStep(f, p, events[0]);
        AgreesIff(FineStep(f, events[0]), FollowFine(p, events[0]), events[1..]);
      }
    }
  }

  lemma DocumentedThroughoutIff<V>(events: seq<FineEvent<V>>)
    ensures
      var f := Fine(Published<V>(), []);
      AgreesThroughout(f, InitialSpec<V>(), events) <==> NoneStale(f, events)
  {
    PublishedBuilt<V>();
    AgreesIff(Fine(Published<V>(), []), InitialSpec<V>(), events);
  }

  function FollowAllFine<V>(p: Spec<V>, events: seq<FineEvent<V>>): Spec<V>
    decreases |events|
  {
    if events == [] then p else FollowAllFine(FollowFine(p, events[0]), events[1..])
  }

  lemma {:induction false} SimulateRun<V>(f: Fine<V>, p: Spec<V>, events: seq<FineEvent<V>>)
    requires Simulates(f, p) && NoneStale(f, events)
    ensures Simulates(FineRun(f, events), FollowAllFine(p, events))
    decreases |events|
  {
    if events != [] {
      SimulateStep(f, p, events[0]);
      SimulateRun(FineStep(f, events[0]), FollowFine(p, events[0]), events[1..]);
    }
  }

  lemma StartSimulates<V>()
    ensures Simulates(Fine(Published<V>(), []), InitialSpec<V>())
  {
    PublishedBuilt<V>();
  }

  /**
   * With nothing stale the output is the documented one if and only if it is not so that the receiver
   * and the latest signal are done and a replaced one has still to be cut. Then only the completion is
   * missing, and it is sent by the time the notification is over.
   */
  lemma CompletesLateIff<V>(events: seq<FineEvent<V>>)
    requires NoneStale(Fine(Published<V>(), []), events)
    ensures
      var f := FineRun(Fine(Published<V>(), []), events);
      var p := FollowAllFine(InitialSpec<V>(), events);
      && (f.bind.out == p.out <==> !Lagging(f))
      && (Lagging(f) ==> !f.bind.out.disposed && p.out == f.bind.out.Send(Completed))
      && (f.cutting == [] ==> !Lagging(f))
  {
    var f, p := FineRun(Fine(Published<V>(), []), events), FollowAllFine(InitialSpec<V>(), events);
    StartSimulates<V>();
    SimulateRun(Fine(Published<V>(), []), InitialSpec<V>(), events);
    SimulatedOutput(f, p);
    if Lagging(f) { assert |p.out.received| == |f.bind.out.received| + 1; }
  }

  function Fires<V>(n: nat): seq<FineEvent<V>> {
    if n == 0 then [] else [Fire] + Fires(n - 1)
  }

  /** A notification that goes on to its end cuts every replaced signal. */
  lemma {:induction false} NotificationEnds<V>(f: Fine<V>)
    requires LatestOrCutting(f)
    ensures
      var r := FineRun(f, Fires(|f.cutting|));
      r.cutting == [] && r.bind.nextId == f.bind.nextId && forall i :: i in r.bind.open ==> i == f.bind.nextId - 1
    decreases |f.cutting|
  {
    if f.cutting != [] {
      var n := |f.cutting|;
      FineKeeps(f, Fire);
      NotificationEnds(FineStep(f, Fire));
      assert ([Fire] + Fires<V>(n - 1))[1..] == Fires<V>(n - 1);
    }
  }

  lemma {:induction false} FiresTake<V>(f: Fine<V>, n: nat)
    requires n <= |f.cutting| && Built(f.bind)
    ensures
      var r := FineRun(f, Fires(n));
      && r.cutting == f.cutting[n..] && Built(r.bind) && r.bind.nextId == f.bind.nextId
      && forall i :: i in r.bind.open ==> i in f.bind.open && i !in f.cutting[..n]
    decreases n
  {
    if n > 0 {
      var g := FineStep(f, Fire);
      BuiltStep(f.bind, InnerDone(f.cutting[0]));
      FiresTake(g, n - 1);
      assert ([Fire] + Fires<V>(n - 1))[1..] == Fires<V>(n - 1);
      assert f.cutting[1..][..n - 1] == f.cutting[1..n] && f.cutting[..n] == [f.cutting[0]] + f.cutting[1..n];
    }
  }

  /**
   * A notification nested in another is through before the outer one goes on, and cuts all signals but the
   * newest by itself.
   */
  lemma NestedNotificationCuts<V>(f: Fine<V>)
    requires LatestOrCutting(f) && f.bind.sourceOpen
    ensures
      var r := FineRun(FineStep(f, Subscribe), Fires(|Upto(f.bind, f.bind.nextId)|));
      r.cutting == f.cutting && forall i :: i in r.bind.open ==> i == r.bind.nextId - 1
  {
    var g, own := FineStep(f, Subscribe), Upto(f.bind, f.bind.nextId);
    FineKeeps(f, Subscribe);
    FiresTake(g, |own|);
    assert g.cutting == own + f.cutting && g.cutting[..|own|] == own && g.cutting[|own|..] == f.cutting;
  }

  ghost predicate ExactThroughout<V>(f: Fine<V>, p: Spec<V>, events: seq<FineEvent<V>>)
    decreases |events|
  {
    f.bind.out == p.out &&
    (events == [] || ExactThroughout(FineStep(f, events[0]), FollowFine(p, events[0]), events[1..]))
  }

  predicate NeverLagging<V>(f: Fine<V>, events: seq<FineEvent<V>>)
    decreases |events|
  {
    !Lagging(f) && (events == [] || NeverLagging(FineStep(f, events[0]), events[1..]))
  }

  lemma {:induction false} ExactIff<V>(f: Fine<V>, p: Spec<V>, events: seq<FineEvent<V>>)
    requires Simulates(f, p)
    ensures ExactThroughout(f, p, events) <==> NoneStale(f, events) && NeverLagging(f, events)
    decreases |events|
  {
    if Lagging(f) {
      assert |p.out.received| == |f.bind.out.received| + 1;
    } else if events != [] {
      if Stale(f, events[0]) {
        StaleShows(f, p, events[0]);
      } else {
        SimulateStep(f, p, events[0]);
        ExactIff(FineStep(f, events[0]), FollowFine(p, events[0]), events[1..]);
      }
    }
  }

  /** The output is the documented one at every point if and only if nothing is stale and completion never lags. */
  lemma DocumentedExactlyIff<V>(events: seq<FineEvent<V>>)
    ensures
      var f := Fine(Published<V>(), []);
      ExactThroughout(f, InitialSpec<V>(), events) <==> NoneStale(f, events) && NeverLagging(f, events)
  {
    StartSimulates<V>();
    ExactIff(Fine(Published<V>(), []), InitialSpec<V>(), events);
  }

  /** The state once two signals have been received, with the first still to be cut. */
  lemma TwoReceived<V>()
    ensures
      var f := FineStep(FineStep(Fine(Published<V>(), []), Subscribe), Subscribe);
      && f.bind.sourceOpen && f.bind.open == map[0 := 1, 1 := 2] && f.bind.nextId == 2 && f.bind.out == NewSubscriber()
      && Built(f.bind)
  {
    PublishedBuilt<V>();
    var f1 := FineStep(Fine(Published<V>(), []), Subscribe);
    BuiltStep(Published<V>(), Return(1));
    BuiltStep(f1.bind, Return(2));
  }

  lemma ReceiverEnds<V>(s: State<V>)
    requires Built(s) && s.sourceOpen && s.open != map[]
    ensures
      var t := Apply(s, SourceDone);
      Built(t) && !t.sourceOpen && t.open == s.open && t.nextId == s.nextId && t.out == s.out
  {
    BuiltStep(s, SourceDone);
  }

  lemma InnerEndsBefore<V>(s: State<V>, id: nat, other: nat)
    requires Built(s) && id in s.open && other in s.open && id != other
    ensures Apply(s, InnerDone(id)).out == s.out
  {
    BuiltStep(s, InnerDone(id));
    assert other in s.open - {id};
  }

  lemma OpenHoldsCompletion<V>(f: Fine<V>, id: nat, other: nat)
    requires Built(f.bind) && f.bind.sourceOpen && id in f.bind.open && other in f.bind.open && id != other
    ensures FineStep(FineStep(f, During(ReceiverDone)), During(Inner(InnerDone(id)))).bind.out == f.bind.out
  {
    ReceiverEnds(f.bind);
    InnerEndsBefore(Apply(f.bind, SourceDone), id, other);
  }

  lemma ReferenceCompletes<V>(p: Spec<V>, id: nat)
    requires p.receiving && p.latest == Some(id)
    ensures Follow(Follow(p, ReceiverDone), Inner(InnerDone(id))).out == p.out.Send(Completed)
  {
  }

  /** The receiver and the latest signal complete while the replaced one has still to be cut. */
  lemma CompletionWaits<V>()
    ensures
      var f := FineStep(FineStep(Fine(Published<V>(), []), Subscribe), Subscribe);
      FineStep(FineStep(f, During(ReceiverDone)), During(Inner(InnerDone(1)))).bind.out.received == []
    ensures
      var p := Follow(Follow(InitialSpec<V>(), Received), Received);
      Follow(Follow(p, ReceiverDone), Inner(InnerDone(1))).out.received == [Completed]
  {
    var f := FineStep(FineStep(Fine(Published<V>(), []), Subscribe), Subscribe);
    TwoReceived<V>();
    assert 0 in f.bind.open && 1 in f.bind.open;
    OpenHoldsCompletion(f, 1, 0);
    ReferenceCompletes(Follow(Follow(InitialSpec<V>(), Received), Received), 1);
  }

  /** The documented "only for that signal" does fail there: signal 0 sends after signal 1 was received. */
  lemma StaleValueForwarded<V>(v: V)
    ensures
      var f := FineStep(FineStep(Fine(Published<V>(), []), Subscribe), Subscribe);
      f.bind.nextId == 2 && FineStep(f, During(Inner(InnerNext(0, v)))).bind.out.received == [Next(v)]
  {
    var f1 := FineStep(Fine(Published<V>(), []), Subscribe);
    assert f1.bind.open == map[0 := 1];
  }

  /** And an error of signal 0 then ends everything. */
  lemma StaleErrorForwarded<V>(code: ErrorCode)
    ensures
      var f := FineStep(FineStep(Fine(Published<V>(), []), Subscribe), Subscribe);
      var g := FineStep(f, During(Inner(InnerError(0, code))));
      g.bind.out.received == [Error(code)] && g.bind.open == map[] && !g.bind.sourceOpen
  {
    var f1 := FineStep(Fine(Published<V>(), []), Subscribe);
    assert f1.bind.open == map[0 := 1];
  }
}
