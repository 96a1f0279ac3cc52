/** RACMulticastConnection: connecting once, and the reference-counted autoconnected signal. */
module Multicast {
  import Lists

  /** How far a thread has got in subscribing to the autoconnected signal, and in disposing of that. */
  datatype Phase =
    | Entered       // counted
    | Listening     // subscribed to the subject
    | Subscribing(counted: bool)   // in -connect, having set `hasConnected`
    | Storing(counted: bool)       // holding the source's disposable
    | Live
    | Left          // no longer subscribed to the subject
    | Closing       // counted down to zero, about to dispose of the connection
    | Gone

  datatype Source = Untouched | Active | Disposed

  /** `stored` and `closed` are the serial disposable: whether it holds the source's, and is disposed. */
  datatype State = State(
    hasConnected: bool, stored: bool, closed: bool, source: Source, subscriptions: nat, count: int,
    phases: map<nat, Phase>)

  datatype Action =
    | Enter(id: nat) | Listen(id: nat) | TryConnect(id: nat) | SubscribeSource(id: nat) | Store(id: nat)
    | Leave(id: nat) | CountDown(id: nat) | Close(id: nat)
    | Connect(id: nat)          // -connect called directly
    | DisposeConnection         // the disposable it returns

  const Initial := State(false, false, false, Untouched, 0, 0, map[])

  predicate At(s: State, id: nat, phase: Phase) {
    id in s.phases && s.phases[id] == phase
  }

  function Move(s: State, id: nat, phase: Phase): State {
    s.(phases := s.phases[id := phase])
  }

  /** -connect up to its compare-and-swap. */
  function Swap(s: State, id: nat, counted: bool): State {
    if s.hasConnected then Move(s, id, Connected(counted)) else Move(s, id, Subscribing(counted)).(hasConnected := true)
  }

  /** Where -connect returns to: the subscription block, or its direct caller. */
  function Connected(counted: bool): Phase {
    if counted then Live else Gone
  }

  function DisposeSerial(s: State): State {
    s.(closed := true, stored := false, source := if s.stored then Disposed else s.source)
  }

  function Apply(s: State, a: Action): State {
    match a
    case Enter(id) => if id in s.phases then s else Move(s, id, Entered).(count := s.count + 1)
    case Listen(id) => if At(s, id, Entered) then Move(s, id, Listening) else s
    case TryConnect(id) => if At(s, id, Listening) then Swap(s, id, true) else s
    case Connect(id) => if id in s.phases then s else Swap(s, id, false)
    case SubscribeSource(id) =>
      if id in s.phases && s.phases[id].Subscribing? then
        Move(s, id, Storing(s.phases[id].counted)).(subscriptions := s.subscriptions + 1, source := Active)
      else s
    case Store(id) =>
      if !(id in s.phases && s.phases[id].Storing?) then s
      else
        var r := Move(s, id, Connected(s.phases[id].counted));
        if s.closed then r.(source := Disposed) else r.(stored := true)
    case Leave(id) => if At(s, id, Live) then Move(s, id, Left) else s
    case CountDown(id) =>
      if At(s, id, Left) then Move(s, id, if s.count - 1 == 0 then Closing else Gone).(count := s.count - 1) else s
    case Close(id) => if At(s, id, Closing) then DisposeSerial(Move(s, id, Gone)) else s
    case DisposeConnection => DisposeSerial(s)
  }

  function Run(s: State, actions: seq<Action>): State
    decreases |actions|
  {
    if actions == [] then s else Run(Apply(s, actions[0]), actions[1..])
  }

  // ----- connecting once

  predicate Connecting(s: State, id: nat) {
    id in s.phases && (s.phases[id].Subscribing? || s.phases[id].Storing?)
  }

  ghost predicate Idle(s: State) {
    forall id: nat :: !Connecting(s, id)
  }

  ghost predicate Inv(s: State) {
    && (forall a: nat, b: nat :: Connecting(s, a) && Connecting(s, b) ==> a == b)
    && (!s.hasConnected ==> Idle(s) && s.subscriptions == 0 && !s.stored && s.source == Untouched)
    && (forall id: nat :: Connecting(s, id) && s.phases[id].Subscribing? ==>
      s.subscriptions == 0 && !s.stored && s.source == Untouched)
    && (forall id: nat :: Connecting(s, id) && s.phases[id].Storing? ==>
      s.subscriptions == 1 && !s.stored && s.source == Active)
    && (s.hasConnected && Idle(s) ==> s.subscriptions == 1 && s.source == if s.closed then Disposed else Active)
    && (s.hasConnected && Idle(s) ==> s.stored == !s.closed)
    && (s.closed ==> !s.stored)
    && (s.stored ==> s.source == Active)
  }

  predicate Counted(phase: Phase) {
    match phase
    case Subscribing(counted) => counted
    case Storing(counted) => counted
    case Closing => false
    case Gone => false
    case _ => true
  }

  function Subscribers(s: State): set<nat> {
    set id | id in s.phases && Counted(s.phases[id])
  }

  /** The count is the number of subscriptions begun and not yet counted down. */
  ghost predicate CountOk(s: State) {
    s.count == |Subscribers(s)|
  }

  lemma MoveIdle(s: State, id: nat, phase: Phase)
    requires !Connecting(s, id) && !phase.Subscribing? && !phase.Storing?
    ensures forall x: nat :: Connecting(Move(s, id, phase), x) <==> Connecting(s, x)
  {
  }

  lemma SwapKeeps(s: State, id: nat, counted: bool)
    requires Inv(s) && !Connecting(s, id)
    ensures Inv(Swap(s, id, counted))
  {
    var r := Swap(s, id, counted);
    if s.hasConnected {
      MoveIdle(s, id, Connected(counted));
    } else {
      assert forall x: nat :: !Connecting(s, x);
      assert Connecting(r, id);
      assert forall x: nat :: x != id ==> (Connecting(r, x) <==> Connecting(s, x));
    }
  }

  lemma SubscribeKeeps(s: State, id: nat)
    requires Inv(s) && id in s.phases && s.phases[id].Subscribing?
    ensures Inv(Apply(s, SubscribeSource(id)))
  {
    var r := Apply(s, SubscribeSource(id));
    assert Connecting(s, id) && Connecting(r, id);
    assert forall x: nat :: Connecting(r, x) <==> Connecting(s, x);
  }

  lemma StoreKeeps(s: State, id: nat)
    requires Inv(s) && id in s.phases && s.phases[id].Storing?
    ensures Inv(Apply(s, Store(id)))
  {
    var r := Apply(s, Store(id));
    assert Connecting(s, id);
    assert forall x: nat :: x != id ==> (Connecting(r, x) <==> Connecting(s, x));
    assert !Connecting(r, id);
  }

  lemma CountDownKeeps(s: State, id: nat)
    requires Inv(s) && At(s, id, Left)
    ensures Inv(Apply(s, CountDown(id)))
  {
    MoveIdle(s, id, if s.count - 1 == 0 then Closing else Gone);
    assert forall x: nat :: Connecting(Apply(s, CountDown(id)), x) <==> Connecting(s, x);
  }

  lemma CloseKeeps(s: State, id: nat)
    requires Inv(s) && At(s, id, Closing)
    ensures Inv(Apply(s, Close(id)))
  {
    MoveIdle(s, id, Gone);
    assert forall x: nat :: Connecting(Apply(s, Close(id)), x) <==> Connecting(s, x);
  }

  lemma ApplyKeeps(s: State, a: Action)
    requires Inv(s)
    ensures Inv(Apply(s, a))
  {
    match a
    case Enter(id) =>
      if id !in s.phases {
        MoveIdle(s, id, Entered);
        assert forall x: nat :: Connecting(Apply(s, a), x) <==> Connecting(s, x);
      }
    case Listen(id) => if At(s, id, Entered) { MoveIdle(s, id, Listening); }
    case TryConnect(id) => if At(s, id, Listening) { SwapKeeps(s, id, true); }
    case Connect(id) => if id !in s.phases { SwapKeeps(s, id, false); }
    case SubscribeSource(id) => if id in s.phases && s.phases[id].Subscribing? { SubscribeKeeps(s, id); }
    case Store(id) => if id in s.phases && s.phases[id].Storing? { StoreKeeps(s, id); }
    case Leave(id) => if At(s, id, Live) { MoveIdle(s, id, Left); }
    case CountDown(id) => if At(s, id, Left) { CountDownKeeps(s, id); }
    case Close(id) => if At(s, id, Closing) { CloseKeeps(s, id); }
    case DisposeConnection => assert forall x: nat :: Connecting(Apply(s, a), x) <==> Connecting(s, x);
  }

  lemma MoveSubscribers(s: State, id: nat, phase: Phase)
    ensures Subscribers(Move(s, id, phase)) == if Counted(phase) then Subscribers(s) + {id} else Subscribers(s) - {id}
    ensures id in Subscribers(s) <==> id in s.phases && Counted(s.phases[id])
  {
    var r := Move(s, id, phase);
    forall x ensures x in Subscribers(r) <==> if x == id then Counted(phase) else x in Subscribers(s) {
      assert x != id ==> (x in r.phases <==> x in s.phases);
    }
    if Counted(phase) {
      assert Subscribers(r) == Subscribers(s) + {id};
    } else {
      assert Subscribers(r) == Subscribers(s) - {id};
    }
  }

  lemma SamePhases(s: State, r: State)
    requires s.phases == r.phases
    ensures Subscribers(s) == Subscribers(r)
  {
  }

  lemma CountMove(s: State, id: nat, phase: Phase, r: State)
    requires CountOk(s) && r.phases == s.phases[id := phase]
    requires r.count == s.count + (if Counted(phase) then 1 else 0)
      - (if id in s.phases && Counted(s.phases[id]) then 1 else 0)
    ensures CountOk(r)
  {
    MoveSubscribers(s, id, phase);
    SamePhases(Move(s, id, phase), r);
    SizeWith(Subscribers(s), id);
  }

  lemma SizeWith(ids: set<nat>, id: nat)
    ensures |ids + {id}| == |ids| + if id in ids then 0 else 1
    ensures |ids - {id}| == |ids| - if id in ids then 1 else 0
  {
    if id in ids { assert ids + {id} == ids; } else { assert ids - {id} == ids; }
  }

  lemma CountStep(s: State, a: Action)
    requires CountOk(s)
    ensures CountOk(Apply(s, a))
  {
    var r := Apply(s, a);
    if a.DisposeConnection? || r == s {
      SamePhases(s, r);
    } else {
      CountMove(s, a.id, r.phases[a.id], r);
    }
  }

  lemma {:induction false} EveryRun(s: State, actions: seq<Action>)
    requires Inv(s) && CountOk(s)
    ensures Inv(Run(s, actions)) && CountOk(Run(s, actions))
    decreases |actions|
  {
    if actions != [] {
      ApplyKeeps(s, actions[0]);
      CountStep(s, actions[0]);
      EveryRun(Apply(s, actions[0]), actions[1..]);
    }
  }

  /**
   * In every run the source is subscribed to at most once; when no thread is inside -connect, exactly
   * once if anyone connected, and then it is active if and only if the connection is not disposed of.
   */
  lemma SubscribedAtMostOnce(actions: seq<Action>)
    ensures
      var s := Run(Initial, actions);
      && s.subscriptions <= 1
      && (Idle(s) ==>
        (s.subscriptions == 1 <==> s.hasConnected) && (s.source == Active <==> s.hasConnected && !s.closed))
  {
    assert Subscribers(Initial) == {};
    EveryRun(Initial, actions);
    var s := Run(Initial, actions);
    if !Idle(s) {
      var id: nat :| Connecting(s, id);
    }
  }

  /** Once its disposable is disposed of a connection is never active again: no run reconnects it. */
  lemma {:induction false} NeverReconnects(s: State, actions: seq<Action>)
    requires Inv(s) && s.closed
    ensures Run(s, actions).closed && (Idle(Run(s, actions)) ==> Run(s, actions).source != Active)
    ensures Idle(s) && s.hasConnected
      ==> Run(s, actions).source == Disposed && Run(s, actions).subscriptions == s.subscriptions
    decreases |actions|
  {
    if actions != [] {
      ApplyKeeps(s, actions[0]);
      if Idle(s) && s.hasConnected { assert Idle(Apply(s, actions[0])) by { StaysIdle(s, actions[0]); } }
      NeverReconnects(Apply(s, actions[0]), actions[1..]);
    }
  }

  lemma StaysIdle(s: State, a: Action)
    requires Idle(s) && s.hasConnected
    ensures Idle(Apply(s, a)) && Apply(s, a).hasConnected && Apply(s, a).subscriptions == s.subscriptions
    ensures s.source == Disposed && !s.stored ==> Apply(s, a).source == Disposed
  {
    assert forall id: nat :: id in s.phases ==>
      (Connecting(s, id) <==> s.phases[id].Subscribing? || s.phases[id].Storing?);
  }

  // ----- autoconnect

  predicate CountsToZero(s: State, a: Action) {
    a.CountDown? && At(s, a.id, Left) && s.count == 1
  }

  predicate Emptied(s: State, actions: seq<Action>)
    decreases |actions|
  {
    actions != [] && (CountsToZero(s, actions[0]) || Emptied(Apply(s, actions[0]), actions[1..]))
  }

  ghost predicate SomeoneClosing(s: State) {
    exists id: nat :: At(s, id, Closing)
  }

  lemma ClosingStep(s: State, a: Action)
    ensures Apply(s, a).closed || SomeoneClosing(Apply(s, a))
      <==> s.closed || SomeoneClosing(s) || CountsToZero(s, a) || a.DisposeConnection?
  {
    var r := Apply(s, a);
    if SomeoneClosing(s) {
      var id: nat :| At(s, id, Closing);
      assert r.closed || At(r, id, Closing);
    }
    if SomeoneClosing(r) {
      var id: nat :| At(r, id, Closing);
      assert At(s, id, Closing) || CountsToZero(s, a);
    }
    if CountsToZero(s, a) { assert At(r, a.id, Closing); }
  }

  lemma {:induction false} ClosedOrClosingIff(s: State, actions: seq<Action>)
    ensures Run(s, actions).closed || SomeoneClosing(Run(s, actions))
      <==> s.closed || SomeoneClosing(s) || DisposeConnection in actions || Emptied(s, actions)
    decreases |actions|
  {
    if actions != [] {
      Lists.HeadIn(actions);
      assert forall a :: a in actions ==> a == actions[0] || a in actions[1..];
      ClosingStep(s, actions[0]);
      ClosedOrClosingIff(Apply(s, actions[0]), actions[1..]);
    }
  }

  /** The connection is disposed of if and only if that was asked for directly or the count has returned to zero. */
  lemma ClosedIff(actions: seq<Action>)
    requires !SomeoneClosing(Run(Initial, actions))
    ensures Run(Initial, actions).closed <==> DisposeConnection in actions || Emptied(Initial, actions)
  {
    ClosedOrClosingIff(Initial, actions);
  }

  /** Left to the autoconnected signal, if and only if the count has returned to zero. */
  lemma ClosedIffEmptied(actions: seq<Action>)
    requires DisposeConnection !in actions && !SomeoneClosing(Run(Initial, actions))
    ensures Run(Initial, actions).closed <==> Emptied(Initial, actions)
  {
    ClosedIff(actions);
  }

  // ----- who connects, from the actions alone

  /** How far the actions take a thread up to its compare-and-swap. */
  datatype Progress = Outside | Counting | Listens | Connects

  function Advance(p: Progress, a: Action, id: nat): Progress {
    match a
    case Enter(x) => if x == id && p == Outside then Counting else p
    case Listen(x) => if x == id && p == Counting then Listens else p
    case TryConnect(x) => if x == id && p == Listens then Connects else p
    case Connect(x) => if x == id && p == Outside then Connects else p
    case _ => p
  }

  function ProgressOf(actions: seq<Action>, id: nat): Progress {
    if actions == [] then Outside
    else Advance(ProgressOf(actions[..|actions| - 1], id), actions[|actions| - 1], id)
  }

  ghost predicate SomeoneConnects(actions: seq<Action>) {
    exists id: nat :: ProgressOf(actions, id) == Connects
  }

  function ProgressAt(s: State, id: nat): Progress {
    if id !in s.phases then Outside
    else
      match s.phases[id]
      case Entered => Counting
      case Listening => Listens
      case _ => Connects
  }

  ghost predicate ProgressOk(s: State, actions: seq<Action>) {
    (forall id: nat :: ProgressOf(actions, id) == ProgressAt(s, id)) && (s.hasConnected <==> SomeoneConnects(actions))
  }

  lemma ProgressAppend(actions: seq<Action>, a: Action, id: nat)
    ensures ProgressOf(actions + [a], id) == Advance(ProgressOf(actions, id), a, id)
  {
    Lists.WithoutLast(actions, a);
  }

  lemma ProgressAtStep(s: State, a: Action, id: nat)
    ensures ProgressAt(Apply(s, a), id) == Advance(ProgressAt(s, id), a, id)
    ensures Advance(ProgressAt(s, id), a, id) == Connects ==> ProgressAt(s, id) == Connects || Apply(s, a).hasConnected
    ensures s.hasConnected ==> Apply(s, a).hasConnected
    ensures Apply(s, a).hasConnected && !s.hasConnected ==>
      !a.DisposeConnection? && ProgressAt(Apply(s, a), a.id) == Connects
  {
  }

  lemma ConnectsNow(s: State, actions: seq<Action>, a: Action)
    requires !a.DisposeConnection? && ProgressOf(actions + [a], a.id) == Connects
    ensures SomeoneConnects(actions + [a])
  {
  }

  lemma ProgressStep(s: State, actions: seq<Action>, a: Action)
    requires ProgressOk(s, actions)
    ensures ProgressOk(Apply(s, a), actions + [a])
  {
    var r := Apply(s, a);
    forall id: nat ensures ProgressOf(actions + [a], id) == ProgressAt(r, id) {
      ProgressAppend(actions, a, id);
      ProgressAtStep(s, a, id);
    }
    ProgressAtStep(s, a, 0);
    if r.hasConnected && !s.hasConnected { ConnectsNow(s, actions, a); }
    if SomeoneConnects(actions) {
      var id: nat :| ProgressOf(actions, id) == Connects;
      ProgressAppend(actions, a, id);
      assert ProgressOf(actions + [a], id) == Connects;
    } else if SomeoneConnects(actions + [a]) {
      var id: nat :| ProgressOf(actions + [a], id) == Connects;
      ProgressAppend(actions, a, id);
      ProgressAtStep(s, a, id);
    }
  }

  lemma {:induction false} ProgressRun(s: State, before: seq<Action>, actions: seq<Action>)
    requires ProgressOk(s, before)
    ensures ProgressOk(Run(s, actions), before + actions)
    decreases |actions|
  {
    if actions == [] {
      Lists.ConcatEmpty(before);
    } else {
      ProgressStep(s, before, actions[0]);
      ProgressRun(Apply(s, actions[0]), before + [actions[0]], actions[1..]);
      assert before + [actions[0]] + actions[1..] == before + actions;
    }
  }

  /** In every run someone has connected if and only if the actions take some thread through its compare-and-swap. */
  lemma HasConnectedIff(actions: seq<Action>)
    ensures Run(Initial, actions).hasConnected <==> SomeoneConnects(actions)
  {
    ProgressRun(Initial, [], actions);
    Lists.ConcatEmpty(actions);
  }

  // ----- what one thread does, nothing running in between

  function WholeSubscription(id: nat): seq<Action> {
    [Enter(id), Listen(id), TryConnect(id), SubscribeSource(id), Store(id)]
  }

  function WholeConnect(id: nat): seq<Action> {
    [Connect(id), SubscribeSource(id), Store(id)]
  }

  /** Whether or not it connects, a subscriber is counted and live; the first one subscribes to the source. */
  lemma SubscriptionTakesEffect(s: State, id: nat)
    requires Inv(s) && Idle(s) && id !in s.phases
    ensures
      var r := Run(s, WholeSubscription(id));
      && At(r, id, Live) && r.count == s.count + 1 && r.hasConnected && r.closed == s.closed
      && r.subscriptions == 1 && (!s.hasConnected ==> r.source == if s.closed then Disposed else Active)
      && (s.hasConnected ==> r.source == s.source)
  {
    var s1 := Apply(Apply(s, Enter(id)), Listen(id));
    RunThree(s1, TryConnect(id), SubscribeSource(id), Store(id));
    RunOne(s, Enter(id), [Listen(id), TryConnect(id), SubscribeSource(id), Store(id)]);
    RunOne(Apply(s, Enter(id)), Listen(id), [TryConnect(id), SubscribeSource(id), Store(id)]);
  }

  /** A direct -connect subscribes to the source unless someone has, and counts nobody. */
  lemma ConnectTakesEffect(s: State, id: nat)
    requires Inv(s) && Idle(s) && id !in s.phases
    ensures
      var r := Run(s, WholeConnect(id));
      && r.hasConnected && r.subscriptions == 1 && r.count == s.count && r.closed == s.closed
      && r.source == if s.hasConnected then s.source else if s.closed then Disposed else Active
  {
    RunThree(s, Connect(id), SubscribeSource(id), Store(id));
  }

  /** A subscriber that leaves is live no more and counted no more; the last one disposes of the source. */
  lemma LeavingTakesEffect(s: State, id: nat)
    requires Inv(s) && Idle(s) && s.hasConnected && At(s, id, Live)
    ensures
      var r := Run(s, [Leave(id), CountDown(id), Close(id)]);
      && At(r, id, Gone) && r.count == s.count - 1 && r.subscriptions == s.subscriptions
      && (s.count == 1 ==> r.closed && r.source == Disposed)
      && (s.count != 1 ==> r.closed == s.closed && r.source == s.source)
  {
    RunThree(s, Leave(id), CountDown(id), Close(id));
  }

  predicate HasLeft(s: State, id: nat) {
    id in s.phases && (s.phases[id].Left? || s.phases[id].Closing? || s.phases[id].Gone?)
  }

  /** In every run who has left stays away. */
  lemma {:induction false} LeavingIsFinal(s: State, actions: seq<Action>, id: nat)
    requires HasLeft(s, id)
    ensures HasLeft(Run(s, actions), id)
    decreases |actions|
  {
    if actions != [] {
      HasLeftStep(s, actions[0], id);
      LeavingIsFinal(Apply(s, actions[0]), actions[1..], id);
    }
  }

  lemma HasLeftStep(s: State, a: Action, id: nat)
    requires HasLeft(s, id)
    ensures HasLeft(Apply(s, a), id)
  {
  }

  lemma LiveAfter(s: State, a: Action, id: nat)
    requires At(s, id, Live) && a != Leave(id)
    ensures At(Apply(s, a), id, Live)
  {
  }

  /** A subscriber is disposed of by nobody but itself, in particular not for being late. */
  lemma {:induction false} LiveUntilItLeaves(s: State, actions: seq<Action>, id: nat)
    requires At(s, id, Live) && Leave(id) !in actions
    ensures At(Run(s, actions), id, Live)
    decreases |actions|
  {
    if actions != [] {
      Lists.HeadIn(actions);
      LiveAfter(s, actions[0], id);
      assert forall a :: a in actions[1..] ==> a in actions;
      LiveUntilItLeaves(Apply(s, actions[0]), actions[1..], id);
    }
  }

  /** A late subscriber subscribes, connects nothing and stays live; the documentation says it is disposed of. */
  lemma LateSubscriberStays(s: State, id: nat, actions: seq<Action>)
    requires Inv(s) && Idle(s) && s.hasConnected && s.closed && id !in s.phases && Leave(id) !in actions
    ensures
      var late := Apply(Apply(Apply(s, Enter(id)), Listen(id)), TryConnect(id));
      && At(late, id, Live) && late.subscriptions == s.subscriptions
      && At(Run(late, actions), id, Live) && Run(late, actions).source == Disposed
  {
    var late := Apply(Apply(Apply(s, Enter(id)), Listen(id)), TryConnect(id));
    ApplyKeeps(s, Enter(id));
    ApplyKeeps(Apply(s, Enter(id)), Listen(id));
    ApplyKeeps(Apply(Apply(s, Enter(id)), Listen(id)), TryConnect(id));
    assert forall x: nat :: !Connecting(late, x) by {
      assert forall x: nat :: !Connecting(s, x);
    }
    LiveUntilItLeaves(late, actions, id);
    NeverReconnects(late, actions);
  }

  // ----- the object

  /** The connection and the counter of one -autoconnect; `phases` records where its callers are. */
  class MulticastConnection {
    var hasConnected: bool
    var stored: bool
    var closed: bool
    var subscriberCount: int
    ghost var source: Source
    ghost var subscriptions: nat
    ghost var phases: map<nat, Phase>

    ghost function View(): State
      reads this
    {
      State(hasConnected, stored, closed, source, subscriptions, subscriberCount, phases)
    }

    constructor ()
      ensures View() == Initial
    {
      hasConnected, stored, closed := false, false, false;
      subscriberCount, source, subscriptions, phases := 0, Untouched, 0, map[];
    }

    /**
     * -connect by the subscription block of `id`, nothing running in between; returns whether it subscribed
     * the source.
     */
    method Connect(ghost id: nat) returns (subscribe: bool)
      requires At(View(), id, Listening)
      modifies this
      ensures View() ==
        Run(old(View()), if subscribe then [TryConnect(id), SubscribeSource(id), Store(id)] else [TryConnect(id)])
      ensures subscribe == !old(hasConnected) && hasConnected
      ensures subscriptions == old(subscriptions) + if subscribe then 1 else 0
    {
      ghost var s := View();
      subscribe := !hasConnected;
      hasConnected := true;
      phases := phases[id := Live];
      if subscribe {
        subscriptions := subscriptions + 1;
        if closed { source := Disposed; } else { stored, source := true, Active; }
        ghost var won := Apply(s, TryConnect(id));
        ghost var holding := Apply(won, SubscribeSource(id));
        assert s.phases[id := Subscribing(true)][id := Storing(true)][id := Live] == phases;
        assert View() == Apply(holding, Store(id));
        RunThree(s, TryConnect(id), SubscribeSource(id), Store(id));
      } else {
        assert [TryConnect(id)][1..] == [];
      }
    }

    /** What disposing of an autoconnected subscription does, nothing running in between. */
    method Unsubscribe(ghost id: nat)
      requires At(View(), id, Live)
      modifies this
      ensures View() == Run(old(View()), [Leave(id), CountDown(id), Close(id)])
      ensures closed <==> old(closed) || old(subscriberCount) == 1
    {
      ghost var s := View();
      subscriberCount := subscriberCount - 1;
      if subscriberCount == 0 {
        source := if stored then Disposed else source;
        closed, stored := true, false;
      }
      phases := phases[id := Gone];
      WholeUnsubscribe(s, id);
      RunThree(s, Leave(id), CountDown(id), Close(id));
    }
  }

  lemma RunOne(s: State, a: Action, rest: seq<Action>)
    ensures Run(s, [a] + rest) == Run(Apply(s, a), rest)
  {
    assert ([a] + rest)[1..] == rest;
  }

  lemma RunThree(s: State, a: Action, b: Action, c: Action)
    ensures Run(s, [a, b, c]) == Apply(Apply(Apply(s, a), b), c)
  {
    RunOne(s, a, [b, c]);
    RunOne(Apply(s, a), b, [c]);
    RunOne(Apply(Apply(s, a), b), c, []);
    assert [a] + [b, c] == [a, b, c] && [b] + [c] == [b, c] && [c] + [] == [c];
  }

  /** The three steps of disposing of a subscription, together. */
  lemma WholeUnsubscribe(s: State, id: nat)
    requires At(s, id, Live)
    ensures
      var gone := s.(count := s.count - 1, phases := s.phases[id := Gone]);
      Apply(Apply(Apply(s, Leave(id)), CountDown(id)), Close(id)) == if s.count == 1 then DisposeSerial(gone) else gone
  {
    var left := Apply(s, Leave(id));
    var down := Apply(left, CountDown(id));
    assert At(left, id, Left);
    assert left.phases[id := Gone] == s.phases[id := Gone];
    if s.count == 1 { assert down.phases[id := Gone] == s.phases[id := Gone]; }
  }
}
