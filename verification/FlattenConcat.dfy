/** -concat is -flatten: with one slot: when its sections interleave, is the output the concatenation? */
module FlattenConcat {
  import Lists
  import opened Options
  import opened RacEvents
  import opened Flatten

  // ----- what concatenation is

  /** The values sent, regrouped by signal in order of arrival. */
  function InArrivalOrder<V>(sent: seq<(nat, V)>, n: nat): seq<V> {
    if n == 0 then [] else InArrivalOrder(sent, n - 1) + ValuesOf(sent, n - 1)
  }

  /** The output is the concatenation of what the signals sent, and `completed` comes after the last of them. */
  ghost predicate Follows<V>(s: State<V>) {
    Seconds(s.sent) == InArrivalOrder(s.sent, s.arrived) && (Completed in s.out.received ==> AllDone(s))
  }

  ghost predicate UpTo<V>(sent: seq<(nat, V)>, id: int) {
    forall k :: 0 <= k < |sent| ==> sent[k].0 <= id
  }

  lemma {:induction false} NoValuesOf<V>(sent: seq<(nat, V)>, id: nat)
    requires UpTo(sent, id - 1)
    ensures ValuesOf(sent, id) == []
  {
    if sent != [] {
      NoValuesOf(sent[..|sent| - 1], id);
      Lists.LastIn(sent);
    }
  }

  lemma ValuesOfMore<V>(sent: seq<(nat, V)>, x: (nat, V), id: nat)
    ensures ValuesOf(sent + [x], id) == if x.0 == id then ValuesOf(sent, id) + [x.1] else ValuesOf(sent, id)
  {
    Lists.WithoutLast(sent, x);
    Lists.ConcatEmpty(ValuesOf(sent, id));
  }

  lemma SecondsMore<V>(sent: seq<(nat, V)>, x: (nat, V))
    ensures Seconds(sent + [x]) == Seconds(sent) + [x.1]
  {
    Lists.WithoutLast(sent, x);
  }

  /** Values of signals beyond the first `n` are in no group of theirs. */
  lemma {:induction false} GroupsBefore<V>(sent: seq<(nat, V)>, x: (nat, V), n: nat)
    requires n <= x.0
    ensures InArrivalOrder(sent + [x], n) == InArrivalOrder(sent, n)
  {
    if n > 0 {
      GroupsBefore(sent, x, n - 1);
      ValuesOfMore(sent, x, n - 1);
    }
  }

  lemma LastGroupGrows<V>(sent: seq<(nat, V)>, x: (nat, V))
    ensures InArrivalOrder(sent + [x], x.0 + 1) == InArrivalOrder(sent, x.0 + 1) + [x.1]
  {
    GroupsBefore(sent, x, x.0);
    ValuesOfMore(sent, x, x.0);
    Lists.ConcatAssociates(InArrivalOrder(sent, x.0), ValuesOf(sent, x.0), [x.1]);
  }

  lemma {:induction false} EmptyGroups<V>(sent: seq<(nat, V)>, m: nat, n: nat)
    requires UpTo(sent, m - 1) && m <= n
    ensures InArrivalOrder(sent, n) == InArrivalOrder(sent, m)
    decreases n
  {
    if m < n {
      EmptyGroups(sent, m, n - 1);
      GroupsOfNewSignal(sent, n - 1);
    }
  }

  /** A value of the latest signal that has sent anything joins the end. */
  lemma GroupGrows<V>(sent: seq<(nat, V)>, x: (nat, V), n: nat)
    requires UpTo(sent, x.0) && x.0 < n
    ensures InArrivalOrder(sent + [x], n) == InArrivalOrder(sent, n) + [x.1]
  {
    var m := x.0 + 1;
    LastGroupGrows(sent, x);
    EmptyGroups(sent, m, n);
    EmptyGroups(sent + [x], m, n);
  }

  lemma {:induction false} GroupsOfNewSignal<V>(sent: seq<(nat, V)>, n: nat)
    requires UpTo(sent, n - 1)
    ensures InArrivalOrder(sent, n + 1) == InArrivalOrder(sent, n)
  {
    NoValuesOf(sent, n);
    Lists.ConcatEmpty(InArrivalOrder(sent, n));
  }

  // ----- clean runs

  /**
   * The receiver sends its next signal, or completes, between a dequeue and the subscription to the dequeued
   * signal.
   */
  predicate Interferes<V>(s: State<V>, step: Step<V>) {
    (step.Arrive? || step.ReceiverDone?) && !ReceiverSilent(s) && s.started != [] && !s.out.disposed
  }

  predicate NoInterference<V>(s: State<V>, steps: seq<Step<V>>)
    decreases |steps|
  {
    steps == [] || (!Interferes(s, steps[0]) && NoInterference(Apply(s, steps[0]), steps[1..]))
  }

  /** The signal whose turn it is: in its slot, or the next to arrive. */
  function Current<V>(s: State<V>): int {
    s.arrived - |s.queued| - Committed(s)
  }

  /** One signal at a time, the others waiting behind it in order of arrival. */
  ghost predicate OneAtATime<V>(s: State<V>) {
    && Committed(s) <= 1 && 0 <= Current(s)
    && (forall id :: id in s.active || id in s.started ==> id == Current(s))
    && (forall k :: 0 <= k < |s.queued| ==> s.queued[k] == Current(s) + Committed(s) + k)
    && (s.queued != [] ==> Committed(s) == 1)
    && (s.admitted.Some? ==> s.started == [s.admitted.value])
    && UpTo(s.sent, if s.active != [] then Current(s) else Current(s) - 1)
  }

  ghost predicate Clean<V>(s: State<V>) {
    && s.max == 1 && Partition(s) && Faithful(s) && NeverMissed(s) && Follows(s)
    && UpTo(s.sent, s.arrived - 1)
    && (!s.out.disposed ==> OneAtATime(s))
  }

  lemma InitialClean<V>()
    ensures Clean(Initial<V>(1))
  {
    assert forall i: nat :: Places(Initial<V>(1), i) == 0;
  }

  lemma ClosedStays<V>(s: State<V>, step: Step<V>)
    requires s.out.disposed
    ensures Apply(s, step).out == s.out && Apply(s, step).sent == s.sent && Apply(s, step).max == s.max
    ensures Apply(s, step).done >= s.done && Apply(s, step).arrived >= s.arrived
    ensures s.selfCompleted ==> Apply(s, step).arrived == s.arrived
    ensures Apply(s, step).arrived <= s.arrived + 1
  {
  }

  lemma OneAtATimeArrive<V>(s: State<V>)
    requires s.max == 1 && OneAtATime(s) && !Interferes(s, Arrive) && !s.out.disposed
    ensures OneAtATime(Apply(s, Arrive))
  {
  }

  lemma OneAtATimeSubscribe<V>(s: State<V>, id: nat)
    requires s.max == 1 && OneAtATime(s)
    ensures OneAtATime(Apply(s, Subscribe(id)))
  {
    if id in s.started { assert s.started == [id] && Remove(s.started, id) == []; }
  }

  lemma OneAtATimeDone<V>(s: State<V>, id: nat)
    requires s.max == 1 && OneAtATime(s)
    ensures OneAtATime(Apply(s, InnerDone(id)))
  {
    if id in s.active { assert s.active == [id] && Remove(s.active, id) == []; }
  }

  lemma OneAtATimeStep<V>(s: State<V>, step: Step<V>)
    requires s.max == 1 && OneAtATime(s) && !Interferes(s, step) && !s.out.disposed
    ensures OneAtATime(Apply(s, step)) && Apply(s, step).max == 1
  {
    match step
    case Arrive => OneAtATimeArrive(s);
    case Subscribe(id) => OneAtATimeSubscribe(s, id);
    case InnerDone(id) => OneAtATimeDone(s, id);
    case InnerNext(id, v) => if id in s.active { OneAtATimeNext(s, id, v); }
    case _ =>
  }

  lemma OneAtATimeNext<V>(s: State<V>, id: nat, v: V)
    requires OneAtATime(s) && id in s.active
    ensures OneAtATime(Apply(s, InnerNext(id, v)))
  {
  }

  lemma FollowsNext<V>(s: State<V>, id: nat, v: V)
    requires Clean(s) && !s.out.disposed && id in s.active
    ensures Follows(Apply(s, InnerNext(id, v))) && UpTo(Apply(s, InnerNext(id, v)).sent, s.arrived - 1)
  {
    InPlaceNotDone(s, id);
    assert id == Current(s);
    SecondsMore(s.sent, (id, v));
    GroupGrows(s.sent, (id, v), s.arrived);
  }

  lemma CompletedNoMoreArrive<V>(s: State<V>)
    requires NeverMissed(s) && Completed in s.out.received
    ensures Apply(s, Arrive) == s
  {
  }

  lemma ArriveSendsNothing<V>(s: State<V>)
    ensures Apply(s, Arrive).sent == s.sent && Apply(s, Arrive).out == s.out && Apply(s, Arrive).done == s.done
    ensures Apply(s, Arrive).arrived == s.arrived || Apply(s, Arrive).arrived == s.arrived + 1
  {
  }

  lemma FollowsArrive<V>(s: State<V>)
    requires Follows(s) && NeverMissed(s) && UpTo(s.sent, s.arrived - 1)
    ensures Follows(Apply(s, Arrive)) && UpTo(Apply(s, Arrive).sent, Apply(s, Arrive).arrived - 1)
  {
    ArriveSendsNothing(s);
    GroupsOfNewSignal(s.sent, s.arrived);
    if Completed in s.out.received { CompletedNoMoreArrive(s); }
  }

  lemma FollowsSame<V>(s: State<V>, t: State<V>)
    requires Follows(s) && t.sent == s.sent && t.arrived == s.arrived && s.done <= t.done
    requires Completed in t.out.received ==> Completed in s.out.received || AllDone(t)
    ensures Follows(t)
  {
  }

  lemma FollowsInnerDone<V>(s: State<V>, id: nat)
    requires Clean(s) && Partition(Apply(s, InnerDone(id)))
    ensures Follows(Apply(s, InnerDone(id)))
    ensures UpTo(Apply(s, InnerDone(id)).sent, Apply(s, InnerDone(id)).arrived - 1)
  {
    var t := Apply(s, InnerDone(id));
    AllDoneMeansNoneLeft(t);
    if id in s.active && !s.out.disposed { assert s.active == [id] && Remove(s.active, id) == []; }
    FollowsSame(s, t);
  }

  lemma FollowsReceiverDone<V>(s: State<V>)
    requires Clean(s) && !Interferes(s, ReceiverDone)
    ensures Follows(Apply(s, ReceiverDone))
    ensures UpTo(Apply(s, ReceiverDone).sent, Apply(s, ReceiverDone).arrived - 1)
  {
    AllDoneMeansNoneLeft(s);
    FollowsSame(s, Apply(s, ReceiverDone));
  }

  lemma FollowsRest<V>(s: State<V>, step: Step<V>)
    requires Follows(s) && UpTo(s.sent, s.arrived - 1)
    requires step.Subscribe? || step.ReceiverFailed? || step.InnerFailed?
    ensures Follows(Apply(s, step)) && UpTo(Apply(s, step).sent, Apply(s, step).arrived - 1)
  {
    FollowsSame(s, Apply(s, step));
  }

  /** What holds of every run holds of a clean one. */
  lemma CleanStepBasics<V>(s: State<V>, step: Step<V>)
    requires Clean(s) && !Interferes(s, step)
    ensures
      var t := Apply(s, step);
      t.max == 1 && Partition(t) && Faithful(t) && NeverMissed(t) && (!t.out.disposed ==> OneAtATime(t))
  {
    PartitionStep(s, step);
    FaithfulStep(s, step);
    NeverMissedStep(s, step);
    if !s.out.disposed { OneAtATimeStep(s, step); } else { ClosedStays(s, step); }
  }

  lemma FollowsSends<V>(s: State<V>, id: nat, v: V)
    requires Clean(s)
    ensures Follows(Apply(s, InnerNext(id, v)))
    ensures UpTo(Apply(s, InnerNext(id, v)).sent, Apply(s, InnerNext(id, v)).arrived - 1)
  {
    if id in s.active && !s.out.disposed { FollowsNext(s, id, v); }
  }

  lemma FollowsStep<V>(s: State<V>, step: Step<V>)
    requires Clean(s) && !Interferes(s, step) && Partition(Apply(s, step))
    ensures Follows(Apply(s, step)) && UpTo(Apply(s, step).sent, Apply(s, step).arrived - 1)
  {
    match step
    case Arrive => FollowsArrive(s);
    case InnerNext(id, v) => FollowsSends(s, id, v);
    case InnerDone(id) => FollowsInnerDone(s, id);
    case ReceiverDone => FollowsReceiverDone(s);
    case _ => FollowsRest(s, step);
  }

  lemma CleanStep<V>(s: State<V>, step: Step<V>)
    requires Clean(s) && !Interferes(s, step)
    ensures Clean(Apply(s, step))
  {
    CleanStepBasics(s, step);
    FollowsStep(s, step);
  }

  lemma {:induction false} CleanRun<V>(s: State<V>, steps: seq<Step<V>>)
    requires Clean(s) && NoInterference(s, steps)
    ensures Clean(Run(s, steps))
    decreases |steps|
  {
    if steps != [] {
      CleanStep(s, steps[0]);
      CleanRun(Apply(s, steps[0]), steps[1..]);
    }
  }

  // ----- and interference breaks it

  /** The dequeued signal is subscribed to second and its value comes second. */
  function Overtaking<V>(dequeued: nat, arrived: nat, a: V, b: V): seq<Step<V>> {
    [Subscribe(arrived)] + ([InnerNext(arrived, b)] + ([Subscribe(dequeued)] + ([InnerNext(dequeued, a)] + [])))
  }

  lemma RunFirst<V>(s: State<V>, first: Step<V>, rest: seq<Step<V>>)
    ensures Run(s, [first] + rest) == Run(Apply(s, first), rest)
    ensures !Interferes(s, first) && NoInterference(Apply(s, first), rest) ==> NoInterference(s, [first] + rest)
  {
    assert ([first] + rest)[1..] == rest;
  }

  /** What overtaking does where the newcomer has been admitted beside the dequeued signal. */
  lemma OvertakingRun<V>(t: State<V>, c: nat, n: nat, a: V, b: V)
    requires t.started == [c, n] && t.active == [] && c != n && !t.out.disposed
    ensures
      var more := Overtaking(c, n, a, b);
      && NoInterference(t, more) && Run(t, more).arrived == t.arrived
      && Run(t, more).sent == t.sent + [(n, b)] + [(c, a)]
  {
    var last: seq<Step<V>> := [InnerNext(c, a)] + [];
    var t1 := Apply(t, Subscribe(n));
    assert Remove([c, n], n) == [c] && Remove([c], c) == [];
    assert t1.active == [n] && t1.started == [c];
    var t2 := Apply(t1, InnerNext(n, b));
    var t3 := Apply(t2, Subscribe(c));
    assert t3.active == [n, c];
    RunFirst(t3, InnerNext(c, a), []);
    RunFirst(t2, Subscribe(c), last);
    RunFirst(t1, InnerNext(n, b), [Subscribe(c)] + last);
    RunFirst(t, Subscribe(n), [InnerNext(n, b)] + ([Subscribe(c)] + last));
  }

  lemma {:induction false} OutOfOrder<V>(sent: seq<(nat, V)>, c: nat, a: V, n: nat, b: V)
    requires UpTo(sent, c - 1) && c < n
    ensures InArrivalOrder(sent + [(n, b)] + [(c, a)], n + 1) == InArrivalOrder(sent, n) + [a] + [b]
  {
    Swap(sent, c, a, n, b, n);
    GroupGrows(sent, (c, a), n);
    ValuesOfMore(sent + [(n, b)], (c, a), n);
    ValuesOfMore(sent, (n, b), n);
    NoValuesOf(sent, n);
    Lists.ConcatEmpty([b]);
  }

  lemma {:induction false} SameGroups<V>(x: seq<(nat, V)>, y: seq<(nat, V)>, m: nat)
    requires forall id: nat :: id < m ==> ValuesOf(x, id) == ValuesOf(y, id)
    ensures InArrivalOrder(x, m) == InArrivalOrder(y, m)
  {
    if m > 0 { SameGroups(x, y, m - 1); }
  }

  /** The groups before `n` do not see a value of signal `n`. */
  lemma Swap<V>(sent: seq<(nat, V)>, c: nat, a: V, n: nat, b: V, m: nat)
    requires m <= n
    ensures InArrivalOrder(sent + [(n, b)] + [(c, a)], m) == InArrivalOrder(sent + [(c, a)], m)
  {
    forall id: nat | id < m { SwapValues(sent, c, a, n, b, id); }
    SameGroups(sent + [(n, b)] + [(c, a)], sent + [(c, a)], m);
  }

  lemma SwapValues<V>(sent: seq<(nat, V)>, c: nat, a: V, n: nat, b: V, id: nat)
    requires id != n
    ensures ValuesOf(sent + [(n, b)] + [(c, a)], id) == ValuesOf(sent + [(c, a)], id)
  {
    ValuesOfMore(sent + [(n, b)], (c, a), id);
    ValuesOfMore(sent, (n, b), id);
    ValuesOfMore(sent, (c, a), id);
  }

  lemma NotConcatenated<V>(s: State<V>, r: State<V>, c: nat, a: V, n: nat, b: V)
    requires Seconds(s.sent) == InArrivalOrder(s.sent, n) && UpTo(s.sent, c - 1) && c < n && a != b
    requires r.sent == s.sent + [(n, b)] + [(c, a)] && r.arrived == n + 1
    ensures !Follows(r)
  {
    OutOfOrder(s.sent, c, a, n, b);
    SecondsMore(s.sent, (n, b));
    SecondsMore(s.sent + [(n, b)], (c, a));
    OrderShows(Seconds(s.sent), a, b);
  }

  lemma OrderShows<V>(before: seq<V>, a: V, b: V)
    requires a != b
    ensures before + [b] + [a] != before + [a] + [b]
  {
    assert (before + [b] + [a])[|before|] == b && (before + [a] + [b])[|before|] == a;
  }

  lemma ArrivalOvertakes<V>(s: State<V>, a: V, b: V)
    requires Clean(s) && Interferes(s, Arrive) && a != b
    ensures
      var t := Apply(s, Arrive);
      var more := Overtaking(s.started[0], s.arrived, a, b);
      NoInterference(t, more) && !Follows(Run(t, more))
  {
    var t, c, n := Apply(s, Arrive), s.started[0], s.arrived;
    InPlaceNotDone(s, c);
    assert s.started == [c] && c == Current(s) && s.active == [];
    OvertakingRun(t, c, n, a, b);
    NotConcatenated(s, Run(t, Overtaking(c, n, a, b)), c, a, n, b);
  }

  lemma CompletionOvertakes<V>(s: State<V>) returns (more: seq<Step<V>>)
    requires Clean(s) && Interferes(s, ReceiverDone)
    ensures NoInterference(Apply(s, ReceiverDone), more) && !Follows(Run(Apply(s, ReceiverDone), more))
  {
    more := [];
    var t, c := Apply(s, ReceiverDone), s.started[0];
    InPlaceNotDone(s, c);
    assert s.active == [];
    assert t.out.received == s.out.received + [Completed];
    assert t.out.received[|s.out.received|] == Completed;
  }

  /**
   * After a run in which the receiver sent nothing between a dequeue and its subscription, one more step
   * keeps the output the concatenation, however such a run goes on, if and only if it does not either.
   */
  lemma ConcatenatesIff<V>(steps: seq<Step<V>>, step: Step<V>, a: V, b: V)
    requires NoInterference(Initial<V>(1), steps) && a != b
    ensures
      var t := Apply(Run(Initial<V>(1), steps), step);
      !Interferes(Run(Initial<V>(1), steps), step)
      <==> forall more :: NoInterference(t, more) ==> Follows(Run(t, more))
  {
    var s := Run(Initial<V>(1), steps);
    var t := Apply(s, step);
    InitialClean<V>();
    CleanRun(Initial<V>(1), steps);
    if !Interferes(s, step) {
      CleanStep(s, step);
      forall more | NoInterference(t, more) ensures Follows(Run(t, more)) { CleanRun(t, more); }
    } else if step.Arrive? {
      ArrivalOvertakes(s, a, b);
    } else {
      assert step == ReceiverDone;
      var more := CompletionOvertakes(s);
      assert NoInterference(t, more) && !Follows(Run(t, more));
    }
  }

  // ----- cold signals with scripts

  /** A cold signal: its values, sent only while subscribed to, and how it ends. */
  datatype Script<V> = Script(values: seq<V>, ending: Ending)
  datatype Ending = Finishes | Fails(error: ErrorCode) | Never

  /**
   * Concatenation: what is left to send from value `pos` of signal `k`, signal after signal, cut at the first
   * error.
   */
  function Concat<V>(scripts: seq<Script<V>>, k: nat, pos: nat): seq<Event<V>>
    decreases |scripts| - k, if k < |scripts| then |scripts[k].values| - pos else 0
  {
    if k >= |scripts| then [Completed]
    else if pos < |scripts[k].values| then [Next(scripts[k].values[pos])] + Concat(scripts, k, pos + 1)
    else match scripts[k].ending
      case Finishes => Concat(scripts, k + 1, 0)
      case Fails(e) => [Error(e)]
      case Never => []
  }

  /** Whose section is next: the receiver's, that of a signal to be subscribed to, or that of an active signal. */
  datatype Turn = Receiver | Subscribing(i: nat) | Event(i: nat)

  /** How many values each signal has sent. */
  type Progress = map<nat, nat>

  function At(progress: Progress, id: nat): nat {
    if id in progress then progress[id] else 0
  }

  /** The step that a turn is; None when it is nobody's. */
  function StepOf<V>(s: State<V>, progress: Progress, scripts: seq<Script<V>>, turn: Turn): Option<Step<V>> {
    match turn
    case Receiver => Some(if s.arrived < |scripts| then Arrive else ReceiverDone)
    case Subscribing(i) => if i < |s.started| then Some(Subscribe(s.started[i])) else None
    case Event(i) =>
      if i >= |s.active| || s.active[i] >= |scripts| then None
      else
        var id := s.active[i];
        if At(progress, id) < |scripts[id].values| then Some(InnerNext(id, scripts[id].values[At(progress, id)]))
        else match scripts[id].ending
          case Finishes => Some(InnerDone(id))
          case Fails(e) => Some(InnerFailed(id, e))
          case Never => None
  }

  function Advance<V>(progress: Progress, step: Step<V>): Progress {
    if step.InnerNext? then progress[step.id := At(progress, step.id) + 1] else progress
  }

  /** A schedule of sections, each taken by whoever the schedule names. */
  function Turns<V>(s: State<V>, progress: Progress, scripts: seq<Script<V>>, schedule: seq<Turn>): State<V>
    decreases |schedule|
  {
    if schedule == [] then s
    else
      match StepOf(s, progress, scripts, schedule[0])
      case None => Turns(s, progress, scripts, schedule[1..])
      case Some(step) => Turns(Apply(s, step), Advance(progress, step), scripts, schedule[1..])
  }

  predicate NoTurnInterferes<V>(s: State<V>, progress: Progress, scripts: seq<Script<V>>, schedule: seq<Turn>)
    decreases |schedule|
  {
    schedule == [] ||
    match StepOf(s, progress, scripts, schedule[0])
    case None => NoTurnInterferes(s, progress, scripts, schedule[1..])
    case Some(step) =>
      !Interferes(s, step) && NoTurnInterferes(Apply(s, step), Advance(progress, step), scripts, schedule[1..])
  }

  /** What is left of the concatenation is what has not been sent. */
  ghost predicate OnTrack<V>(s: State<V>, progress: Progress, scripts: seq<Script<V>>) {
    && s.max == 1
    && if s.out.disposed then s.out.received == Concat(scripts, 0, 0)
       else
         && OneAtATime(s) && NeverMissed(s)
         && s.arrived <= |scripts| && (s.selfCompleted ==> s.arrived == |scripts|)
         && (forall id :: id in progress ==> id <= Current(s) && (id == Current(s) ==> s.active != []))
         && s.out.received + Concat(scripts, Current(s), At(progress, Current(s))) == Concat(scripts, 0, 0)
  }

  lemma TrackClosed<V>(s: State<V>, progress: Progress, scripts: seq<Script<V>>, step: Step<V>)
    requires OnTrack(s, progress, scripts) && s.out.disposed
    ensures OnTrack(Apply(s, step), Advance(progress, step), scripts)
  {
    ClosedStays(s, step);
  }

  lemma TrackReceiver<V>(s: State<V>, progress: Progress, scripts: seq<Script<V>>)
    requires OnTrack(s, progress, scripts) && !s.out.disposed
    requires !Interferes(s, if s.arrived < |scripts| then Arrive else ReceiverDone)
    ensures OnTrack(Apply(s, if s.arrived < |scripts| then Arrive else ReceiverDone), progress, scripts)
  {
    var step := if s.arrived < |scripts| then Arrive else ReceiverDone;
    OneAtATimeStep(s, step);
    if step.ReceiverDone? && Apply(s, step).out.disposed {
      assert Current(s) == |scripts|;
    }
  }

  lemma TrackSubscribe<V>(s: State<V>, progress: Progress, scripts: seq<Script<V>>, id: nat)
    requires OnTrack(s, progress, scripts) && !s.out.disposed && id in s.started
    ensures OnTrack(Apply(s, Subscribe(id)), progress, scripts)
  {
    OneAtATimeStep(s, Subscribe(id));
    assert s.started == [id] && Remove(s.started, id) == [];
  }

  lemma TrackNext<V>(s: State<V>, progress: Progress, scripts: seq<Script<V>>, id: nat)
    requires OnTrack(s, progress, scripts) && !s.out.disposed && s.active == [id] && id < |scripts|
    requires At(progress, id) < |scripts[id].values|
    ensures
      var step := InnerNext(id, scripts[id].values[At(progress, id)]);
      OnTrack(Apply(s, step), Advance(progress, step), scripts)
  {
    var e := Next(scripts[id].values[At(progress, id)]);
    assert id in s.active && id == Current(s);
    OneAtATimeStep(s, InnerNext(id, scripts[id].values[At(progress, id)]));
    Lists.ConcatAssociates(s.out.received, [e], Concat(scripts, id, At(progress, id) + 1));
  }

  lemma TrackDone<V>(s: State<V>, progress: Progress, scripts: seq<Script<V>>, id: nat)
    requires OnTrack(s, progress, scripts) && !s.out.disposed && s.active == [id] && id < |scripts|
    requires At(progress, id) >= |scripts[id].values| && scripts[id].ending.Finishes?
    ensures OnTrack(Apply(s, InnerDone(id)), progress, scripts)
  {
    assert id in s.active && id == Current(s) && Remove([id], id) == [];
    OneAtATimeStep(s, InnerDone(id));
    assert Concat(scripts, id, At(progress, id)) == Concat(scripts, id + 1, 0);
    var t := Apply(s, InnerDone(id));
    if t.out.disposed { assert id + 1 == |scripts|; }
  }

  lemma TrackFails<V>(s: State<V>, progress: Progress, scripts: seq<Script<V>>, id: nat)
    requires OnTrack(s, progress, scripts) && !s.out.disposed && s.active == [id] && id < |scripts|
    requires At(progress, id) >= |scripts[id].values| && scripts[id].ending.Fails?
    ensures OnTrack(Apply(s, InnerFailed(id, scripts[id].ending.error)), progress, scripts)
  {
    assert id in s.active && id == Current(s);
  }

  lemma TrackTurn<V>(s: State<V>, progress: Progress, scripts: seq<Script<V>>, turn: Turn)
    requires OnTrack(s, progress, scripts) && StepOf(s, progress, scripts, turn).Some?
    requires !Interferes(s, StepOf(s, progress, scripts, turn).value)
    ensures
      var step := StepOf(s, progress, scripts, turn).value;
      OnTrack(Apply(s, step), Advance(progress, step), scripts)
  {
    var step := StepOf(s, progress, scripts, turn).value;
    if s.out.disposed {
      TrackClosed(s, progress, scripts, step);
    } else {
      match turn
      case Receiver => TrackReceiver(s, progress, scripts);
      case Subscribing(i) => TrackSubscribe(s, progress, scripts, s.started[i]);
      case Event(i) =>
        var id := s.active[i];
        assert s.active == [id];
        if At(progress, id) < |scripts[id].values| { TrackNext(s, progress, scripts, id); }
        else if scripts[id].ending.Finishes? { TrackDone(s, progress, scripts, id); }
        else { TrackFails(s, progress, scripts, id); }
    }
  }

  lemma {:induction false} TrackTurns<V>(s: State<V>, progress: Progress, scripts: seq<Script<V>>, schedule: seq<Turn>)
    returns (p: Progress)
    requires OnTrack(s, progress, scripts) && NoTurnInterferes(s, progress, scripts, schedule)
    ensures OnTrack(Turns(s, progress, scripts, schedule), p, scripts)
    decreases |schedule|
  {
    if schedule == [] {
      p := progress;
    } else {
      match StepOf(s, progress, scripts, schedule[0])
      case None => p := TrackTurns(s, progress, scripts, schedule[1..]);
      case Some(step) =>
        TrackTurn(s, progress, scripts, schedule[0]);
        p := TrackTurns(Apply(s, step), Advance(progress, step), scripts, schedule[1..]);
    }
  }

  /**
   * For cold signals with finite scripts, under every schedule of sections in which the receiver does not
   * interfere: what has been sent is a prefix of the concatenation, and all of it once ended.
   */
  lemma FlattenOneIsConcat<V>(scripts: seq<Script<V>>, schedule: seq<Turn>)
    requires NoTurnInterferes(Initial<V>(1), map[], scripts, schedule)
    ensures
      var s := Turns(Initial<V>(1), map[], scripts, schedule);
      && s.out.received <= Concat(scripts, 0, 0)
      && (s.out.disposed ==> s.out.received == Concat(scripts, 0, 0))
      && (s.selfCompleted && s.active == [] && s.started == [] ==> s.out.disposed)
  {
    var s0 := Initial<V>(1);
    Lists.ConcatEmpty(Concat(scripts, 0, 0));
    var p := TrackTurns(s0, map[], scripts, schedule);
    var s := Turns(s0, map[], scripts, schedule);
    if s.out.disposed { Lists.ConcatEmpty(s.out.received); }
  }

  /** Interference shows: the value of signal 2 goes out before that of signal 1, which left the queue first. */
  lemma ConcatOutOfOrder<V>(a: V, b: V)
    ensures Values(Run(OneDequeued<V>(), [Arrive] + Overtaking(1, 2, a, b)).out.received) == [b] + [a]
  {
    var s := OneDequeued<V>();
    var t := Apply(s, Arrive);
    assert t.started == [1, 2] && t.active == [];
    RunFirst(s, Arrive, Overtaking(1, 2, a, b));
    OvertakingRun(t, 1, 2, a, b);
    assert s.sent == [];
    SecondsMore<V>([], (2, b));
    SecondsMore([(2, b)], (1, a));
    EverySentShows(s, [Arrive] + Overtaking(1, 2, a, b));
  }

  lemma EverySentShows<V>(s: State<V>, steps: seq<Step<V>>)
    requires Partition(s) && Faithful(s)
    ensures Values(Run(s, steps).out.received) == Seconds(Run(s, steps).sent)
  {
    EveryRun(s, steps);
  }

  /** Two signals have arrived; the first has finished and the second is about to be subscribed to. */
  function OneDequeued<V>(): (s: State<V>)
    ensures s == Apply(Apply(Apply(Apply(Initial(1), Arrive), Subscribe(0)), Arrive), InnerDone(0))
    ensures s.out == NewSubscriber()
  {
    assert Remove([0], 0) == [];
    State(1, 2, [], [], [1], None, false, false, {0}, [], NewSubscriber())
  }

  /** And `completed` goes out while signal 1 is about to be subscribed to. */
  lemma ConcatCompletesEarly<V>()
    ensures
      var t := Apply(OneDequeued<V>(), ReceiverDone);
      t.out.received == [Completed] && t.started == [1]
  {
  }
}
