/** RACDisposable, RACCompoundDisposable and RACSerialDisposable: disposal over shared, nested disposables. */
module Disposables {
  import Lists
  import opened Options
  import opened Sums

  /**
   * Disposables are named by position in the heap. A compound keeps two inline slots and an array
   * for what does not fit; `ran` counts how often a block has run.
   */
  datatype Node =
    | Leaf(disposed: bool, ran: nat)
    | Compound(disposed: bool, first: Option<nat>, second: Option<nat>, others: seq<nat>)
    | Serial(disposed: bool, inner: Option<nat>)
  {
    function Held(): seq<nat> {
      match this
      case Leaf(_, _) => []
      case Compound(_, a, b, rest) => One(a) + One(b) + rest
      case Serial(_, d) => One(d)
    }
  }

  function One(d: Option<nat>): seq<nat> {
    if d.Some? then [d.value] else []
  }

  /** What a thread has still to do outside the lock: dispose of a disposable, or run a leaf's block. */
  datatype Due = Dispose(target: nat) | RunBlock(target: nat)

  datatype State = State(nodes: seq<Node>, due: seq<Due>)

  /**
   * Atomic steps. `seen` is what addDisposable: read of the argument before taking the lock: a stale
   * "not disposed" is possible, a stale "disposed" is not. `Perform` carries out one piece of due work.
   */
  datatype Action =
    | Create(node: Node)
    | Add(compound: nat, d: nat, seen: bool)
    | Remove(compound: nat, d: nat)
    | SwapIn(serial: nat, inner: Option<nat>)
    | CallDispose(d: nat)
    | Perform(i: nat)

  function AddTo(c: Node, d: nat): (r: Node)
    requires c.Compound?
  {
    if c.first.None? then c.(first := Some(d))
    else if c.second.None? then c.(second := Some(d))
    else c.(others := c.others + [d])
  }

  function WithoutAll(ds: seq<nat>, d: nat): (r: seq<nat>)
    ensures forall e :: e in r <==> e in ds && e != d
  {
    if ds == [] then []
    else if ds[0] == d then WithoutAll(ds[1..], d)
    else [ds[0]] + WithoutAll(ds[1..], d)
  }

  function RemoveFrom(c: Node, d: nat): Node
    requires c.Compound?
  {
    Compound(c.disposed, if c.first == Some(d) then None else c.first, if c.second == Some(d) then None else c.second,
             WithoutAll(c.others, d))
  }

  /** The node once its -dispose has left the lock. */
  function Disposed(n: Node): Node {
    match n
    case Leaf(_, ran) => Leaf(true, ran)
    case Compound(_, _, _, _) => Compound(true, None, None, [])
    case Serial(_, _) => Serial(true, None)
  }

  function DisposeAll(ds: seq<nat>): seq<Due> {
    if ds == [] then [] else [Dispose(ds[0])] + DisposeAll(ds[1..])
  }

  /** The work that disposing of node `d` leaves to its thread. */
  function WorkOf(n: Node, d: nat): seq<Due> {
    match n
    case Leaf(disposed, _) => if disposed then [] else [RunBlock(d)]
    case _ => DisposeAll(n.Held())
  }

  predicate Is(s: State, d: nat) {
    d < |s.nodes|
  }

  function Apply(s: State, a: Action): State {
    match a
    case Create(node) =>
      if !node.disposed && (node.Leaf? ==> node.ran == 0) && (forall e :: e in node.Held() ==> Is(s, e)) then
        s.(nodes := s.nodes + [node])
      else s
    case Add(c, d, seen) =>
      if !Is(s, c) || !Is(s, d) || !s.nodes[c].Compound? || (seen && s.nodes[d].disposed) then s
      else if s.nodes[c].disposed then s.(due := s.due + [Dispose(d)])
      else s.(nodes := s.nodes[c := AddTo(s.nodes[c], d)])
    case Remove(c, d) =>
      if !Is(s, c) || !s.nodes[c].Compound? || s.nodes[c].disposed then s
      else s.(nodes := s.nodes[c := RemoveFrom(s.nodes[c], d)])
    case SwapIn(c, d) =>
      if !Is(s, c) || !s.nodes[c].Serial? || (d.Some? && !Is(s, d.value)) then s
      else if s.nodes[c].disposed then s.(due := s.due + DisposeAll(One(d)))
      else s.(nodes := s.nodes[c := Serial(false, d)])
    case CallDispose(d) => if Is(s, d) then s.(due := s.due + [Dispose(d)]) else s
    case Perform(i) =>
      if i >= |s.due| || !Is(s, s.due[i].target) then s
      else
        var d, rest := s.due[i].target, s.due[..i] + s.due[i + 1..];
        match s.due[i]
        case Dispose(_) => State(s.nodes[d := Disposed(s.nodes[d])], rest + WorkOf(s.nodes[d], d))
        case RunBlock(_) =>
          if s.nodes[d].Leaf?
          then State(s.nodes[d := s.nodes[d].(ran := s.nodes[d].ran + 1)], rest)
          else s.(due := rest)
  }

  function Run(s: State, actions: seq<Action>): State
    decreases |actions|
  {
    if actions == [] then s else Run(Apply(s, actions[0]), actions[1..])
  }

  /** Nothing is disposed of by another thread that has not been carried out yet. */
  predicate Quiet(s: State) {
    s.due == []
  }

  // ----- whatever a container held when it was disposed of, or was given later, is disposed of

  /** As far as container `c` is concerned `d` is safe: still held, or about to be disposed of, or disposed. */
  ghost predicate Covered(s: State, c: nat, d: nat) {
    && Is(s, c) && Is(s, d)
    && ((!s.nodes[c].disposed && d in s.nodes[c].Held()) || s.nodes[d].disposed || Dispose(d) in s.due)
  }

  /** The actions that take `d` out of `c` without disposing of it. */
  predicate TakesOut(a: Action, c: nat, d: nat) {
    (a.Remove? && a.compound == c && a.d == d) || (a.SwapIn? && a.serial == c && a.inner != Some(d))
  }

  lemma {:induction false} DisposeAllHas(ds: seq<nat>, d: nat)
    ensures Dispose(d) in DisposeAll(ds) <==> d in ds
  {
    if ds != [] {
      DisposeAllHas(ds[1..], d);
      assert ds == [ds[0]] + ds[1..];
    }
  }

  lemma AddToHolds(c: Node, d: nat)
    requires c.Compound?
    ensures forall e :: e in AddTo(c, d).Held() <==> e in c.Held() || e == d
  {
  }

  lemma RemoveFromHolds(c: Node, d: nat)
    requires c.Compound?
    ensures forall e :: e in RemoveFrom(c, d).Held() <==> e in c.Held() && e != d
  {
  }

  lemma PerformKeepsCovered(s: State, i: nat, c: nat, d: nat)
    requires Covered(s, c, d)
    ensures Covered(Apply(s, Perform(i)), c, d)
  {
    if i < |s.due| && Is(s, s.due[i].target) {
      var r, t := Apply(s, Perform(i)), s.due[i].target;
      var rest := s.due[..i] + s.due[i + 1..];
      assert forall x :: x in s.due ==> x == s.due[i] || x in rest;
      if s.due[i].Dispose? && t == c { DisposeAllHas(s.nodes[c].Held(), d); }
    }
  }

  lemma ApplyKeepsCovered(s: State, a: Action, c: nat, d: nat)
    requires Covered(s, c, d) && !TakesOut(a, c, d)
    ensures Covered(Apply(s, a), c, d)
  {
    match a
    case Add(x, e, _) => if Is(s, x) && s.nodes[x].Compound? { AddToHolds(s.nodes[x], e); }
    case Remove(x, e) => if Is(s, x) && s.nodes[x].Compound? { RemoveFromHolds(s.nodes[x], e); }
    case Perform(i) => PerformKeepsCovered(s, i, c, d);
    case _ =>
  }

  lemma {:induction false} RunKeepsCovered(s: State, actions: seq<Action>, c: nat, d: nat)
    requires Covered(s, c, d) && forall i :: 0 <= i < |actions| ==> !TakesOut(actions[i], c, d)
    ensures Covered(Run(s, actions), c, d)
    decreases |actions|
  {
    if actions != [] {
      ApplyKeepsCovered(s, actions[0], c, d);
      RunKeepsCovered(Apply(s, actions[0]), actions[1..], c, d);
    }
  }

  /**
   * Added before or after the container is disposed of: disposed of when it is, if not taken out and once all
   * is quiet.
   */
  lemma HeldIsDisposed(s: State, give: Action, actions: seq<Action>, c: nat, d: nat)
    requires Is(s, c) && Is(s, d)
    requires (give.Add? && give.compound == c && give.d == d && s.nodes[c].Compound?
      && (give.seen ==> s.nodes[d].disposed))
      || (give.SwapIn? && give.serial == c && give.inner == Some(d) && s.nodes[c].Serial?)
      || (d in s.nodes[c].Held() && !s.nodes[c].disposed && !TakesOut(give, c, d))
    requires forall i :: 0 <= i < |actions| ==> !TakesOut(actions[i], c, d)
    ensures
      var r := Run(Apply(s, give), actions);
      Is(r, c) && Is(r, d) && (Quiet(r) && r.nodes[c].disposed ==> r.nodes[d].disposed)
  {
    if give.Add? && give.compound == c && give.d == d && s.nodes[c].Compound? {
      AddToHolds(s.nodes[c], d);
    } else if give.SwapIn? && give.serial == c && give.inner == Some(d) && s.nodes[c].Serial? {
      DisposeAllHas(One(Some(d)), d);
    } else {
      ApplyKeepsCovered(s, give, c, d);
    }
    RunKeepsCovered(Apply(s, give), actions, c, d);
  }

  /** `path` leads from a container to something it holds, perhaps through several others. */
  ghost predicate CoveredPath(s: State, path: seq<nat>) {
    path != [] && forall i :: 0 <= i < |path| - 1 ==> Covered(s, path[i], path[i + 1])
  }

  /** In a tree of any depth, everything still held under a disposed root is disposed of once all is quiet. */
  lemma {:induction false} TreeIsDisposed(s: State, path: seq<nat>, actions: seq<Action>)
    requires CoveredPath(s, path)
    requires forall i, k :: 0 <= i < |actions| && 0 <= k < |path| - 1 ==> !TakesOut(actions[i], path[k], path[k + 1])
    requires
      var r := Run(s, actions);
      Quiet(r) && Is(r, path[0]) && r.nodes[path[0]].disposed
    ensures
      var r := Run(s, actions);
      forall k :: 0 <= k < |path| ==> Is(r, path[k]) && r.nodes[path[k]].disposed
    decreases |path|
  {
    if |path| > 1 {
      var n := |path| - 1;
      assert Covered(s, path[n - 1], path[n]);
      TreeIsDisposed(s, path[..n], actions);
      RunKeepsCovered(s, actions, path[n - 1], path[n]);
      assert path[..n][n - 1] == path[n - 1];
      forall k | 0 <= k < |path| ensures Is(Run(s, actions), path[k]) && Run(s, actions).nodes[path[k]].disposed {
        if k < n { assert path[..n][k] == path[k]; }
      }
    }
  }

  // ----- and nothing else is

  /** Nobody holds `d` and nobody is about to dispose of it. */
  ghost predicate Free(s: State, d: nat) {
    && Is(s, d) && !s.nodes[d].disposed && Dispose(d) !in s.due
    && forall c: nat :: Is(s, c) ==> d !in s.nodes[c].Held()
  }

  predicate Gives(a: Action, d: nat) {
    match a
    case Create(node) => d in node.Held()
    case Add(_, e, _) => e == d
    case SwapIn(_, e) => e == Some(d)
    case CallDispose(e) => e == d
    case _ => false
  }

  lemma PerformKeepsFree(s: State, i: nat, d: nat)
    requires Free(s, d)
    ensures Free(Apply(s, Perform(i)), d)
  {
    if i < |s.due| && Is(s, s.due[i].target) {
      var t, rest := s.due[i].target, s.due[..i] + s.due[i + 1..];
      assert forall x :: x in rest ==> x in s.due;
      assert s.due[i] in s.due;
      DisposeAllHas(s.nodes[t].Held(), d);
    }
  }

  lemma AddKeepsFree(s: State, a: Action, d: nat)
    requires Free(s, d) && !Gives(a, d) && a.Add?
    ensures Free(Apply(s, a), d)
  {
    if Is(s, a.compound) && s.nodes[a.compound].Compound? { AddToHolds(s.nodes[a.compound], a.d); }
  }

  lemma RemoveKeepsFree(s: State, a: Action, d: nat)
    requires Free(s, d) && a.Remove?
    ensures Free(Apply(s, a), d)
  {
    if Is(s, a.compound) && s.nodes[a.compound].Compound? { RemoveFromHolds(s.nodes[a.compound], a.d); }
  }

  lemma ApplyKeepsFree(s: State, a: Action, d: nat)
    requires Free(s, d) && !Gives(a, d)
    ensures Free(Apply(s, a), d)
  {
    match a
    case Add(_, _, _) => AddKeepsFree(s, a, d);
    case Remove(_, _) => RemoveKeepsFree(s, a, d);
    case SwapIn(_, e) => DisposeAllHas(One(e), d);
    case Perform(i) => PerformKeepsFree(s, i, d);
    case _ =>
  }

  lemma {:induction false} FreeStaysUndisposed(s: State, actions: seq<Action>, d: nat)
    requires Free(s, d) && forall i :: 0 <= i < |actions| ==> !Gives(actions[i], d)
    ensures Free(Run(s, actions), d)
    decreases |actions|
  {
    if actions != [] {
      ApplyKeepsFree(s, actions[0], d);
      FreeStaysUndisposed(Apply(s, actions[0]), actions[1..], d);
    }
  }

  /** What is removed from its only compound, or swapped out of its only serial, is never disposed of by them. */
  lemma TakenOutIsNotDisposed(s: State, take: Action, actions: seq<Action>, c: nat, d: nat)
    requires Is(s, c) && Is(s, d) && d != c && !s.nodes[c].disposed && !s.nodes[d].disposed && Dispose(d) !in s.due
    requires forall x: nat :: Is(s, x) && x != c ==> d !in s.nodes[x].Held()
    requires TakesOut(take, c, d) && (take.Remove? ==> s.nodes[c].Compound?)
    requires !take.Remove? ==> s.nodes[c].Serial? && (take.inner.Some? ==> Is(s, take.inner.value))
    requires forall i :: 0 <= i < |actions| ==> !Gives(actions[i], d)
    ensures Is(Run(Apply(s, take), actions), d) && !Run(Apply(s, take), actions).nodes[d].disposed
  {
    if take.Remove? { RemoveFromHolds(s.nodes[c], d); }
    FreeStaysUndisposed(Apply(s, take), actions, d);
  }

  // ----- what is disposed of was asked to be, or was given to something that was disposed of

  /** The disposable is there, and disposed of or about to be. */
  ghost predicate Asked(s: State, d: nat) {
    Is(s, d) && (s.nodes[d].disposed || Dispose(d) in s.due)
  }

  lemma AskedStep(s: State, a: Action, d: nat)
    requires Asked(s, d)
    ensures Asked(Apply(s, a), d)
  {
    if a.Perform? && a.i < |s.due| {
      var rest := s.due[..a.i] + s.due[a.i + 1..];
      assert forall x :: x in s.due ==> x == s.due[a.i] || x in rest;
    }
  }

  lemma {:induction false} AskedRun(s: State, actions: seq<Action>, d: nat)
    requires Asked(s, d)
    ensures Asked(Run(s, actions), d)
    decreases |actions|
  {
    if actions != [] {
      AskedStep(s, actions[0], d);
      AskedRun(Apply(s, actions[0]), actions[1..], d);
    }
  }

  /** Calling -dispose has its effect in every run, once all is quiet. */
  lemma DisposedWhenAsked(s: State, d: nat, actions: seq<Action>)
    requires Is(s, d)
    ensures
      var r := Run(Apply(s, CallDispose(d)), actions);
      Is(r, d) && (Quiet(r) ==> r.nodes[d].disposed)
  {
    assert Dispose(d) in Apply(s, CallDispose(d)).due;
    AskedRun(Apply(s, CallDispose(d)), actions, d);
  }

  /** What an action gives to which container, a new one being named by the position it gets. */
  ghost function GiftsOf(s: State, a: Action): set<(nat, nat)> {
    match a
    case Create(node) => set e | e in node.Held() :: (|s.nodes|, e)
    case Add(c, d, _) => {(c, d)}
    case SwapIn(c, Some(d)) => {(c, d)}
    case _ => {}
  }

  ghost function Gifts(s: State, actions: seq<Action>): set<(nat, nat)>
    decreases |actions|
  {
    if actions == [] then {} else GiftsOf(s, actions[0]) + Gifts(Apply(s, actions[0]), actions[1..])
  }

  ghost function Calls(actions: seq<Action>): set<nat> {
    set a | a in actions && a.CallDispose? :: a.d
  }

  ghost predicate GivenToDisposed(s: State, gifts: set<(nat, nat)>, d: nat) {
    exists c: nat :: (c, d) in gifts && Is(s, c) && s.nodes[c].disposed
  }

  ghost predicate Explained(s: State, gifts: set<(nat, nat)>, calls: set<nat>) {
    && (forall c: nat, e :: Is(s, c) && e in s.nodes[c].Held() ==> (c, e) in gifts)
    && (forall d: nat :: (Is(s, d) && s.nodes[d].disposed) || Dispose(d) in s.due ==>
        d in calls || GivenToDisposed(s, gifts, d))
  }

  lemma DisposedStays(s: State, a: Action, c: nat)
    requires Is(s, c) && s.nodes[c].disposed
    ensures Is(Apply(s, a), c) && Apply(s, a).nodes[c].disposed
  {
  }

  lemma HeldExplained(s: State, a: Action, gifts: set<(nat, nat)>, calls: set<nat>, c: nat, e: nat)
    requires Explained(s, gifts, calls) && Is(Apply(s, a), c) && e in Apply(s, a).nodes[c].Held()
    ensures (c, e) in gifts + GiftsOf(s, a)
  {
    if Is(s, c) && s.nodes[c].Compound? {
      if a.Add? { AddToHolds(s.nodes[c], a.d); }
      if a.Remove? { RemoveFromHolds(s.nodes[c], a.d); }
    }
  }

  lemma DueAfter(s: State, a: Action, d: nat)
    requires Dispose(d) in Apply(s, a).due
    ensures Dispose(d) in s.due || a == CallDispose(d)
      || ((a.Add? || a.SwapIn?) && exists c: nat :: (c, d) in GiftsOf(s, a) && Is(s, c) && s.nodes[c].disposed)
      || (a.Perform? && exists c: nat :: Is(s, c) && d in s.nodes[c].Held() && Apply(s, a).nodes[c].disposed)
  {
    match a
    case SwapIn(c, e) =>
      DisposeAllHas(One(e), d);
      if Dispose(d) !in s.due { assert (c, d) in GiftsOf(s, a) && Is(s, c) && s.nodes[c].disposed; }
    case Add(c, e, _) =>
      if Dispose(d) !in s.due { assert (c, d) in GiftsOf(s, a) && Is(s, c) && s.nodes[c].disposed; }
    case Perform(i) =>
      if i < |s.due| && Is(s, s.due[i].target) {
        var c := s.due[i].target;
        DisposeAllHas(s.nodes[c].Held(), d);
        if Dispose(d) !in s.due {
          assert d in s.nodes[c].Held() && Apply(s, a).nodes[c].disposed;
        }
      }
    case _ =>
  }

  lemma StillExplained(s: State, a: Action, gifts: set<(nat, nat)>, d: nat)
    requires GivenToDisposed(s, gifts, d)
    ensures GivenToDisposed(Apply(s, a), gifts + GiftsOf(s, a), d)
  {
    var c: nat :| (c, d) in gifts && Is(s, c) && s.nodes[c].disposed;
    DisposedStays(s, a, c);
    assert (c, d) in gifts + GiftsOf(s, a);
  }

  lemma NewlyExplained(s: State, a: Action, gifts: set<(nat, nat)>, calls: set<nat>, d: nat)
    requires Explained(s, gifts, calls) && Dispose(d) in Apply(s, a).due && Dispose(d) !in s.due
    ensures a == CallDispose(d) || GivenToDisposed(Apply(s, a), gifts + GiftsOf(s, a), d)
  {
    DueAfter(s, a, d);
    if a.Perform? {
      var c: nat :| Is(s, c) && d in s.nodes[c].Held() && Apply(s, a).nodes[c].disposed;
      assert (c, d) in gifts + GiftsOf(s, a);
    } else if !a.CallDispose? {
      var c: nat :| (c, d) in GiftsOf(s, a) && Is(s, c) && s.nodes[c].disposed;
      DisposedStays(s, a, c);
      assert (c, d) in gifts + GiftsOf(s, a);
    }
  }

  lemma DisposedFromDue(s: State, a: Action, d: nat)
    requires Is(Apply(s, a), d) && Apply(s, a).nodes[d].disposed
    ensures (Is(s, d) && s.nodes[d].disposed) || Dispose(d) in s.due
  {
    if a.Perform? && a.i < |s.due| { assert s.due[a.i] in s.due; }
  }

  lemma DisposalExplained(s: State, a: Action, gifts: set<(nat, nat)>, calls: set<nat>, d: nat)
    requires Explained(s, gifts, calls)
    requires (Is(Apply(s, a), d) && Apply(s, a).nodes[d].disposed) || Dispose(d) in Apply(s, a).due
    ensures d in calls || a == CallDispose(d) || GivenToDisposed(Apply(s, a), gifts + GiftsOf(s, a), d)
  {
    if Is(Apply(s, a), d) && Apply(s, a).nodes[d].disposed { DisposedFromDue(s, a, d); }
    if (Is(s, d) && s.nodes[d].disposed) || Dispose(d) in s.due {
      if d !in calls { StillExplained(s, a, gifts, d); }
    } else {
      NewlyExplained(s, a, gifts, calls, d);
    }
  }

  lemma ExplainedStep(s: State, a: Action, gifts: set<(nat, nat)>, calls: set<nat>)
    requires Explained(s, gifts, calls)
    ensures Explained(Apply(s, a), gifts + GiftsOf(s, a), calls + Calls([a]))
  {
    var r, more := Apply(s, a), gifts + GiftsOf(s, a);
    forall c: nat, e | Is(r, c) && e in r.nodes[c].Held() ensures (c, e) in more {
      HeldExplained(s, a, gifts, calls, c, e);
    }
    forall d: nat | (Is(r, d) && r.nodes[d].disposed) || Dispose(d) in r.due
      ensures d in calls + Calls([a]) || GivenToDisposed(r, more, d)
    {
      DisposalExplained(s, a, gifts, calls, d);
      assert a in [a];
    }
  }

  lemma {:induction false} ExplainedRun(s: State, actions: seq<Action>, gifts: set<(nat, nat)>, calls: set<nat>)
    requires Explained(s, gifts, calls)
    ensures Explained(Run(s, actions), gifts + Gifts(s, actions), calls + Calls(actions))
    decreases |actions|
  {
    if actions == [] {
      assert gifts + Gifts(s, actions) == gifts && calls + Calls(actions) == calls;
    } else {
      var a, rest := actions[0], actions[1..];
      ExplainedStep(s, a, gifts, calls);
      ExplainedRun(Apply(s, a), rest, gifts + GiftsOf(s, a), calls + Calls([a]));
      CallsFirst(a, rest);
      assert actions == [a] + rest;
      assert gifts + GiftsOf(s, a) + Gifts(Apply(s, a), rest) == gifts + Gifts(s, actions);
      assert calls + Calls([a]) + Calls(rest) == calls + Calls(actions);
    }
  }

  lemma CallsFirst(a: Action, rest: seq<Action>)
    ensures Calls([a] + rest) == Calls([a]) + Calls(rest)
  {
    var all := [a] + rest;
    assert forall x :: x in all <==> x in [a] || x in rest;
  }

  /**
   * From nothing, in every run: what is disposed of has been asked to be, or was given to a container that
   * is disposed of. Nothing else is.
   */
  lemma DisposedOnlyWhenReached(actions: seq<Action>, d: nat)
    requires
      var r := Run(State([], []), actions);
      Is(r, d) && r.nodes[d].disposed
    ensures d in Calls(actions) || GivenToDisposed(Run(State([], []), actions), Gifts(State([], []), actions), d)
  {
    ExplainedRun(State([], []), actions, {}, {});
    assert {} + Gifts(State([], []), actions) == Gifts(State([], []), actions);
    assert {} + Calls(actions) == Calls(actions);
  }

  /** A disposable is there once created, of its kind, whatever happens. */
  lemma {:induction false} CreatedStays(s: State, actions: seq<Action>, d: nat)
    requires Is(s, d)
    ensures Is(Run(s, actions), d)
    ensures Run(s, actions).nodes[d].Leaf? == s.nodes[d].Leaf? && Run(s, actions).nodes[d].Serial? == s.nodes[d].Serial?
    decreases |actions|
  {
    if actions != [] { CreatedStays(Apply(s, actions[0]), actions[1..], d); }
  }

  /** Leaves, and containers of what is there, can be created; the new one is the last. */
  lemma CreatingAdds(s: State, node: Node)
    requires !node.disposed && (node.Leaf? ==> node.ran == 0) && forall e :: e in node.Held() ==> Is(s, e)
    ensures Is(Apply(s, Create(node)), |s.nodes|) && Apply(s, Create(node)).nodes[|s.nodes|] == node
  {
  }

  // ----- blocks run once, and the cascade ends

  function Waiting(due: seq<Due>, d: nat): nat {
    if due == [] then 0 else Waiting(due[..|due| - 1], d) + if due[|due| - 1] == RunBlock(d) then 1 else 0
  }

  /** A leaf's block has run, or is about to run, once if the leaf is disposed and not at all otherwise. */
  ghost predicate RunsOnce(s: State, d: nat) {
    if Is(s, d) && s.nodes[d].Leaf? then
      s.nodes[d].ran + Waiting(s.due, d) == if s.nodes[d].disposed then 1 else 0
    else Waiting(s.due, d) == 0
  }

  lemma {:induction false} WaitingConcat(a: seq<Due>, b: seq<Due>, d: nat)
    ensures Waiting(a + b, d) == Waiting(a, d) + Waiting(b, d)
    decreases |b|
  {
    if b == [] {
      Lists.ConcatEmpty(a);
    } else {
      WaitingConcat(a, b[..|b| - 1], d);
      assert (a + b)[..|a + b| - 1] == a + b[..|b| - 1];
    }
  }

  lemma {:induction false} NoBlocks(ds: seq<nat>, d: nat)
    ensures Waiting(DisposeAll(ds), d) == 0
  {
    if ds != [] {
      NoBlocks(ds[1..], d);
      WaitingConcat([Dispose(ds[0])], DisposeAll(ds[1..]), d);
      WaitingOne(Dispose(ds[0]), d);
    }
  }

  lemma WaitingOne(x: Due, d: nat)
    ensures Waiting([x], d) == if x == RunBlock(d) then 1 else 0
  {
    assert [x][..0] == [];
  }

  lemma WaitingWithout(due: seq<Due>, i: nat, d: nat)
    requires i < |due|
    ensures Waiting(due, d) == Waiting(due[..i] + due[i + 1..], d) + if due[i] == RunBlock(d) then 1 else 0
  {
    assert due == due[..i] + ([due[i]] + due[i + 1..]);
    WaitingConcat(due[..i], [due[i]] + due[i + 1..], d);
    WaitingConcat([due[i]], due[i + 1..], d);
    WaitingConcat(due[..i], due[i + 1..], d);
    WaitingOne(due[i], d);
  }

  lemma PerformRunsOnce(s: State, i: nat, d: nat)
    requires RunsOnce(s, d)
    ensures RunsOnce(Apply(s, Perform(i)), d)
  {
    if i < |s.due| && Is(s, s.due[i].target) {
      var t, rest := s.due[i].target, s.due[..i] + s.due[i + 1..];
      WaitingWithout(s.due, i, d);
      if s.due[i].Dispose? {
        WaitingConcat(rest, WorkOf(s.nodes[t], t), d);
        NoBlocks(s.nodes[t].Held(), d);
        WaitingOne(RunBlock(t), d);
      }
    }
  }

  lemma CreateRunsOnce(s: State, node: Node, d: nat)
    requires RunsOnce(s, d)
    ensures RunsOnce(Apply(s, Create(node)), d)
  {
  }

  lemma HoldRunsOnce(s: State, c: nat, n: Node, d: nat)
    requires RunsOnce(s, d) && Is(s, c) && !s.nodes[c].Leaf? && !n.Leaf?
    ensures RunsOnce(s.(nodes := s.nodes[c := n]), d)
  {
  }

  lemma DueRunsOnce(s: State, ds: seq<nat>, d: nat)
    requires RunsOnce(s, d)
    ensures RunsOnce(s.(due := s.due + DisposeAll(ds)), d)
  {
    WaitingConcat(s.due, DisposeAll(ds), d);
    NoBlocks(ds, d);
  }

  lemma DisposeRunsOnce(s: State, e: nat, d: nat)
    requires RunsOnce(s, d)
    ensures RunsOnce(s.(due := s.due + [Dispose(e)]), d)
  {
    Lists.WithoutLast(s.due, Dispose(e));
  }

  lemma ApplyRunsOnce(s: State, a: Action, d: nat)
    requires RunsOnce(s, d)
    ensures RunsOnce(Apply(s, a), d)
  {
    match a
    case Create(node) => CreateRunsOnce(s, node, d);
    case Add(c, e, _) =>
      DisposeRunsOnce(s, e, d);
      if Is(s, c) && s.nodes[c].Compound? { HoldRunsOnce(s, c, AddTo(s.nodes[c], e), d); }
    case Remove(c, e) => if Is(s, c) && s.nodes[c].Compound? { HoldRunsOnce(s, c, RemoveFrom(s.nodes[c], e), d); }
    case SwapIn(c, e) =>
      DueRunsOnce(s, One(e), d);
      if Is(s, c) && s.nodes[c].Serial? { HoldRunsOnce(s, c, Serial(false, e), d); }
    case CallDispose(e) => DisposeRunsOnce(s, e, d);
    case Perform(i) => PerformRunsOnce(s, i, d);
  }

  lemma {:induction false} EveryRunRunsOnce(s: State, actions: seq<Action>, d: nat)
    requires RunsOnce(s, d)
    ensures RunsOnce(Run(s, actions), d)
    decreases |actions|
  {
    if actions != [] {
      ApplyRunsOnce(s, actions[0], d);
      EveryRunRunsOnce(Apply(s, actions[0]), actions[1..], d);
    }
  }

  /**
   * From nothing, under any interleaving: a block has run at most once, and exactly once when its leaf is
   * disposed and all is quiet.
   */
  lemma BlocksRunOnce(actions: seq<Action>, d: nat)
    ensures
      var r := Run(State([], []), actions);
      Is(r, d) && r.nodes[d].Leaf? ==>
        r.nodes[d].ran <= 1 && (r.nodes[d].ran == 1 ==> r.nodes[d].disposed)
          && (Quiet(r) && r.nodes[d].disposed ==> r.nodes[d].ran == 1)
  {
    EveryRunRunsOnce(State([], []), actions, d);
  }

  function Load(n: Node): nat {
    |n.Held()| + if n.Leaf? && !n.disposed then 1 else 0
  }

  lemma {:induction false} DisposeAllLength(ds: seq<nat>)
    ensures |DisposeAll(ds)| == |ds|
  {
    if ds != [] { DisposeAllLength(ds[1..]); }
  }

  ghost predicate Below(n: Node, k: nat) {
    forall e :: e in n.Held() ==> e < k
  }

  /** Everything held or due exists. */
  ghost predicate TargetsOk(s: State) {
    && (forall c: nat :: Is(s, c) ==> Below(s.nodes[c], |s.nodes|))
    && (forall x :: x in s.due ==> Is(s, x.target))
  }

  lemma {:induction false} DisposeAllTargets(ds: seq<nat>)
    ensures forall x :: x in DisposeAll(ds) ==> x.target in ds
  {
    if ds != [] { DisposeAllTargets(ds[1..]); }
  }

  lemma PerformTargetsOk(s: State, i: nat)
    requires TargetsOk(s) && i < |s.due|
    ensures TargetsOk(Apply(s, Perform(i)))
  {
    var d, rest := s.due[i].target, s.due[..i] + s.due[i + 1..];
    assert s.due[i] in s.due;
    assert forall x :: x in rest ==> x in s.due;
    assert Below(s.nodes[d], |s.nodes|);
    DisposeAllTargets(s.nodes[d].Held());
    assert forall x :: x in WorkOf(s.nodes[d], d) ==> Is(s, x.target);
    assert Below(Disposed(s.nodes[d]), |s.nodes|);
  }

  lemma CreateTargetsOk(s: State, node: Node)
    requires TargetsOk(s)
    ensures TargetsOk(Apply(s, Create(node)))
  {
    var r := Apply(s, Create(node));
    if r != s {
      forall c: nat | Is(r, c) ensures Below(r.nodes[c], |r.nodes|) {
        if Is(s, c) {
          assert r.nodes[c] == s.nodes[c] && Below(s.nodes[c], |s.nodes|);
        } else {
          assert r.nodes[c] == node;
        }
      }
    }
  }

  lemma SetTargetsOk(s: State, c: nat, n: Node)
    requires TargetsOk(s) && Is(s, c) && Below(n, |s.nodes|)
    ensures TargetsOk(s.(nodes := s.nodes[c := n]))
  {
  }

  lemma ApplyTargetsOk(s: State, a: Action)
    requires TargetsOk(s)
    ensures TargetsOk(Apply(s, a))
  {
    match a
    case Add(c, e, _) =>
      if Is(s, c) && Is(s, e) && s.nodes[c].Compound? {
        AddToHolds(s.nodes[c], e);
        assert Below(s.nodes[c], |s.nodes|);
        SetTargetsOk(s, c, AddTo(s.nodes[c], e));
      }
    case Remove(c, e) =>
      if Is(s, c) && s.nodes[c].Compound? {
        RemoveFromHolds(s.nodes[c], e);
        assert Below(s.nodes[c], |s.nodes|);
        SetTargetsOk(s, c, RemoveFrom(s.nodes[c], e));
      }
    case SwapIn(c, e) =>
      DisposeAllTargets(One(e));
      if Is(s, c) && (e.Some? ==> Is(s, e.value)) { SetTargetsOk(s, c, Serial(false, e)); }
    case Perform(i) => if i < |s.due| { PerformTargetsOk(s, i); }
    case Create(node) => CreateTargetsOk(s, node);
    case CallDispose(_) =>
  }

  lemma {:induction false} EveryRunTargetsOk(s: State, actions: seq<Action>)
    requires TargetsOk(s)
    ensures TargetsOk(Run(s, actions))
    decreases |actions|
  {
    if actions != [] {
      ApplyTargetsOk(s, actions[0]);
      EveryRunTargetsOk(Apply(s, actions[0]), actions[1..]);
    }
  }

  /**
   * In every run, any due work can be carried out and doing so uses up work, whatever holds whatever:
   * even disposables that hold each other are disposed of in finitely many steps.
   */
  lemma CascadeEnds(actions: seq<Action>, i: nat)
    requires i < |Run(State([], []), actions).due|
    ensures
      var s := Run(State([], []), actions);
      var r := Apply(s, Perform(i));
      Sum(r.nodes, Load) + |r.due| < Sum(s.nodes, Load) + |s.due|
  {
    EveryRunTargetsOk(State([], []), actions);
    var s := Run(State([], []), actions);
    assert s.due[i] in s.due;
    var t := s.due[i].target;
    SumSet(s.nodes, t, Apply(s, Perform(i)).nodes[t], Load);
    DisposeAllLength(s.nodes[t].Held());
  }

  // ----- the objects

  class CompoundDisposable {
    var inlineDisposables: array<Option<nat>>
    var disposables: seq<nat>
    var disposed: bool

    ghost predicate Valid()
      reads this
    {
      inlineDisposables.Length == 2
    }

    ghost function View(): Node
      reads this, inlineDisposables
      requires Valid()
    {
      Compound(disposed, inlineDisposables[0], inlineDisposables[1], disposables)
    }

    constructor (children: seq<nat>)
      ensures Valid() && fresh(inlineDisposables)
      ensures !disposed && View().Held() == children
    {
      var slots := new Option<nat>[2](i => if 0 <= i < |children| then Some(children[i]) else None);
      inlineDisposables, disposed := slots, false;
      disposables := if |children| > 2 then children[2..] else [];
      new;
      assert View().Held() == children;
    }

    /** -addDisposable: past its unlocked check; `disposeNow` tells the caller to dispose of `d`. */
    method AddDisposable(d: nat) returns (disposeNow: bool)
      requires Valid()
      modifies this, inlineDisposables
      ensures Valid() && inlineDisposables == old(inlineDisposables)
      ensures disposeNow == old(disposed)
      ensures View() == if disposeNow then old(View()) else AddTo(old(View()), d)
    {
      disposeNow := disposed;
      if disposed { return; }
      for i := 0 to 2
        invariant Valid() && inlineDisposables == old(inlineDisposables) && View() == old(View())
        invariant forall k :: 0 <= k < i ==> inlineDisposables[k].Some?
      {
        if inlineDisposables[i].None? {
          inlineDisposables[i] := Some(d);
          return;
        }
      }
      disposables := disposables + [d];
    }

    method RemoveDisposable(d: nat)
      requires Valid()
      modifies this, inlineDisposables
      ensures Valid() && inlineDisposables == old(inlineDisposables)
      ensures View() == if old(disposed) then old(View()) else RemoveFrom(old(View()), d)
    {
      if disposed { return; }
      for i := 0 to 2
        invariant Valid() && inlineDisposables == old(inlineDisposables)
        invariant disposed == old(disposed) && disposables == old(disposables)
        invariant forall k :: 0 <= k < 2 ==>
          inlineDisposables[k] ==
            if k < i && old(inlineDisposables[k]) == Some(d) then None else old(inlineDisposables[k])
      {
        if inlineDisposables[i] == Some(d) { inlineDisposables[i] := None; }
      }
      var i := |disposables|;
      while i > 0
        invariant 0 <= i <= |disposables|
        invariant WithoutAll(disposables, d) == WithoutAll(old(disposables), d)
        invariant d !in disposables[i..]
        invariant Valid() && inlineDisposables == old(inlineDisposables) && disposed == old(disposed)
        invariant inlineDisposables[..]
          == old(if inlineDisposables[0] == Some(d) then [None] else [inlineDisposables[0]])
          + old(if inlineDisposables[1] == Some(d) then [None] else [inlineDisposables[1]])
      {
        i := i - 1;
        if disposables[i] == d {
          WithoutAllSkips(disposables, i, d);
          disposables := disposables[..i] + disposables[i + 1..];
        }
      }
      WithoutAllAbsent(disposables, d);
    }

    /** -dispose up to the end of the locked section: what it then disposes of, in order. */
    method Dispose() returns (held: seq<nat>)
      requires Valid()
      modifies this, inlineDisposables
      ensures Valid() && inlineDisposables == old(inlineDisposables)
      ensures held == old(View().Held()) && View() == Disposed(old(View()))
    {
      disposed := true;
      held := One(inlineDisposables[0]) + One(inlineDisposables[1]) + disposables;
      for i := 0 to 2
        invariant Valid() && inlineDisposables == old(inlineDisposables) && disposed
        invariant forall k :: 0 <= k < i ==> inlineDisposables[k].None?
      {
        inlineDisposables[i] := None;
      }
      disposables := [];
    }
  }

  lemma {:induction false} WithoutAllSkips(ds: seq<nat>, i: nat, d: nat)
    requires i < |ds| && ds[i] == d
    ensures WithoutAll(ds[..i] + ds[i + 1..], d) == WithoutAll(ds, d)
  {
    if i == 0 {
      Lists.ConcatEmpty(ds[1..]);
      assert ds[..0] == [];
    } else {
      WithoutAllSkips(ds[1..], i - 1, d);
      assert (ds[..i] + ds[i + 1..])[1..] == ds[1..][..i - 1] + ds[1..][i..];
    }
  }

  lemma {:induction false} WithoutAllAbsent(ds: seq<nat>, d: nat)
    requires d !in ds
    ensures WithoutAll(ds, d) == ds
  {
    if ds != [] { WithoutAllAbsent(ds[1..], d); }
  }

  class SerialDisposable {
    var disposable: Option<nat>
    var disposed: bool

    ghost function View(): Node
      reads this
    {
      Serial(disposed, disposable)
    }

    ghost predicate Valid()
      reads this
    {
      disposed ==> disposable.None?
    }

    constructor ()
      ensures Valid() && View() == Serial(false, None)
    {
      disposable, disposed := None, false;
    }

    /** -swapInDisposable: up to the end of its locked section. */
    method SwapInDisposable(newDisposable: Option<nat>) returns (existing: Option<nat>, disposeNow: bool)
      requires Valid()
      modifies this
      ensures Valid() && disposeNow == old(disposed)
      ensures if disposeNow then View() == old(View()) && existing == None
              else View() == Serial(false, newDisposable) && existing == old(disposable)
    {
      disposeNow := disposed;
      existing := None;
      if !disposed {
        existing := disposable;
        disposable := newDisposable;
      }
    }

    method Dispose() returns (held: Option<nat>)
      requires Valid()
      modifies this
      ensures Valid() && View() == Disposed(old(View()))
      ensures One(held) == old(View().Held())
    {
      held := None;
      if !disposed {
        held := disposable;
        disposed, disposable := true, None;
      }
    }
  }
}
