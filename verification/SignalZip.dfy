/** -[RACSignal zipWith:]: two queues of values waiting for their partners. */
module SignalZip {
  import Lists
  import opened Options
  import opened RacEvents

  datatype State<A, B> = State(
    selfValues: seq<A>, otherValues: seq<B>, selfCompleted: bool, otherCompleted: bool, out: Subscriber<(A, B)>)

  /** What the two sources send; a source that has completed sends nothing more. */
  datatype Step<A, B> =
    | SelfNext(a: A)
    | OtherNext(b: B)
    | SelfDone
    | OtherDone
    | Fail(error: ErrorCode)

  function Initial<A, B>(): State<A, B> {
    State([], [], false, false, NewSubscriber())
  }

  function SendCompletedIfNecessary<A, B>(s: State<A, B>): State<A, B> {
    if (s.selfCompleted && s.selfValues == []) || (s.otherCompleted && s.otherValues == [])
    then s.(out := s.out.Send(Completed))
    else s
  }

  function SendNext<A, B>(s: State<A, B>): State<A, B> {
    if s.selfValues == [] || s.otherValues == [] then s
    else
      SendCompletedIfNecessary(s.(selfValues := s.selfValues[1..], otherValues := s.otherValues[1..],
                                  out := s.out.Send(Next((s.selfValues[0], s.otherValues[0])))))
  }

  function Apply<A, B>(s: State<A, B>, step: Step<A, B>): State<A, B> {
    match step
    case SelfNext(a) => if s.selfCompleted then s else SendNext(s.(selfValues := s.selfValues + [a]))
    case OtherNext(b) => if s.otherCompleted then s else SendNext(s.(otherValues := s.otherValues + [b]))
    case SelfDone => if s.selfCompleted then s else SendCompletedIfNecessary(s.(selfCompleted := true))
    case OtherDone => if s.otherCompleted then s else SendCompletedIfNecessary(s.(otherCompleted := true))
    case Fail(e) => s.(out := s.out.Send(Error(e)))
  }

  function Run<A, B>(steps: seq<Step<A, B>>): State<A, B> {
    if steps == [] then Initial() else Apply(Run(steps[..|steps| - 1]), steps[|steps| - 1])
  }

  // ----- the documented zip

  function SelfOf<A, B>(steps: seq<Step<A, B>>): (r: (seq<A>, bool)) {
    if steps == [] then ([], false)
    else
      var (values, done) := SelfOf(steps[..|steps| - 1]);
      match steps[|steps| - 1]
      case SelfNext(a) => (if done then values else values + [a], done)
      case SelfDone => (values, true)
      case _ => (values, done)
  }

  function OtherOf<A, B>(steps: seq<Step<A, B>>): (r: (seq<B>, bool)) {
    if steps == [] then ([], false)
    else
      var (values, done) := OtherOf(steps[..|steps| - 1]);
      match steps[|steps| - 1]
      case OtherNext(b) => (if done then values else values + [b], done)
      case OtherDone => (values, true)
      case _ => (values, done)
  }

  /** The pairs of the first `n` values of each. */
  function Pairs<A, B>(xs: seq<A>, ys: seq<B>, n: nat): seq<Event<(A, B)>>
    requires n <= |xs| && n <= |ys|
  {
    if n == 0 then [] else Pairs(xs, ys, n - 1) + [Next((xs[n - 1], ys[n - 1]))]
  }

  function Shorter(m: nat, n: nat): nat {
    if m <= n then m else n
  }

  /** One source has completed and every value of it has found its partner. */
  predicate Exhausted<A, B>(xs: seq<A>, selfDone: bool, ys: seq<B>, otherDone: bool) {
    (selfDone && |xs| <= |ys|) || (otherDone && |ys| <= |xs|)
  }

  function Zipped<A, B>(xs: seq<A>, selfDone: bool, ys: seq<B>, otherDone: bool): seq<Event<(A, B)>> {
    Pairs(xs, ys, Shorter(|xs|, |ys|)) + if Exhausted(xs, selfDone, ys, otherDone) then [Completed] else []
  }

  predicate NoFailure<A, B>(steps: seq<Step<A, B>>) {
    forall i :: 0 <= i < |steps| ==> !steps[i].Fail?
  }

  /** The queue holds what has not found a partner. */
  ghost predicate Queued<T>(queue: seq<T>, values: seq<T>, n: nat) {
    |values| == n + |queue| && forall i :: 0 <= i < |queue| ==> queue[i] == values[n + i]
  }

  ghost predicate Tracks<A, B>(s: State<A, B>, xs: seq<A>, selfDone: bool, ys: seq<B>, otherDone: bool) {
    var n := Shorter(|xs|, |ys|);
    && s.selfCompleted == selfDone && s.otherCompleted == otherDone
    && s.out.received == Zipped(xs, selfDone, ys, otherDone) && s.out.disposed == Exhausted(xs, selfDone, ys, otherDone)
    && Queued(s.selfValues, xs, n) && Queued(s.otherValues, ys, n)
  }

  lemma {:induction false} PairsExtend<A, B>(xs: seq<A>, ys: seq<B>, xs': seq<A>, ys': seq<B>, n: nat)
    requires n <= |xs| <= |xs'| && n <= |ys| <= |ys'|
    requires (forall i :: 0 <= i < n ==> xs'[i] == xs[i]) && (forall i :: 0 <= i < n ==> ys'[i] == ys[i])
    ensures Pairs(xs', ys', n) == Pairs(xs, ys, n)
  {
    if n > 0 { PairsExtend(xs, ys, xs', ys', n - 1); }
  }

  lemma SelfNextTracks<A, B>(s: State<A, B>, a: A, xs: seq<A>, ys: seq<B>, otherDone: bool)
    requires Tracks(s, xs, false, ys, otherDone)
    ensures Tracks(Apply(s, SelfNext(a)), xs + [a], false, ys, otherDone)
  {
    PairsExtend(xs, ys, xs + [a], ys, Shorter(|xs|, |ys|));
    if |xs| < |ys| {
      assert s.selfValues == [] && s.otherValues[0] == ys[|xs|];
      Lists.ConcatEmpty(Pairs(xs, ys, |xs|));
      Lists.ConcatEmpty(Pairs(xs + [a], ys, |xs| + 1));
    }
  }

  lemma OtherNextTracks<A, B>(s: State<A, B>, b: B, xs: seq<A>, selfDone: bool, ys: seq<B>)
    requires Tracks(s, xs, selfDone, ys, false)
    ensures Tracks(Apply(s, OtherNext(b)), xs, selfDone, ys + [b], false)
  {
    PairsExtend(xs, ys, xs, ys + [b], Shorter(|xs|, |ys|));
    if |ys| < |xs| {
      assert s.otherValues == [] && s.selfValues[0] == xs[|ys|];
      Lists.ConcatEmpty(Pairs(xs, ys, |ys|));
      Lists.ConcatEmpty(Pairs(xs, ys + [b], |ys| + 1));
    }
  }

  lemma DoneTracks<A, B>(s: State<A, B>, step: Step<A, B>, xs: seq<A>, selfDone: bool, ys: seq<B>, otherDone: bool)
    requires Tracks(s, xs, selfDone, ys, otherDone) && (step.SelfDone? || step.OtherDone?)
    ensures Tracks(Apply(s, step), xs, selfDone || step.SelfDone?, ys, otherDone || step.OtherDone?)
  {
    Lists.ConcatEmpty(Pairs(xs, ys, Shorter(|xs|, |ys|)));
  }

  /**
   * Under any interleaving of the two sources: the pairs of the values sent so far, in order, and
   * completion exactly when a completed source has no value left without a partner.
   */
  lemma {:induction false} ZipsEveryInterleaving<A, B>(steps: seq<Step<A, B>>)
    requires NoFailure(steps)
    ensures
      var (xs, selfDone) := SelfOf(steps);
      var (ys, otherDone) := OtherOf(steps);
      Tracks(Run(steps), xs, selfDone, ys, otherDone)
    decreases |steps|
  {
    if steps != [] {
      var front, last := steps[..|steps| - 1], steps[|steps| - 1];
      ZipsEveryInterleaving(front);
      var (xs, selfDone) := SelfOf(front);
      var (ys, otherDone) := OtherOf(front);
      match last
      case SelfNext(a) => if !selfDone { SelfNextTracks(Run(front), a, xs, ys, otherDone); }
      case OtherNext(b) => if !otherDone { OtherNextTracks(Run(front), b, xs, selfDone, ys); }
      case _ => DoneTracks(Run(front), last, xs, selfDone, ys, otherDone);
    }
  }

  lemma ClosedStays<A, B>(s: State<A, B>, step: Step<A, B>)
    requires s.out.disposed
    ensures Apply(s, step).out == s.out
  {
  }

  /** The first failure of either source ends the zip, unless it has completed; nothing follows. */
  lemma {:induction false} FailureCutsZip<A, B>(steps: seq<Step<A, B>>, k: nat)
    requires k < |steps| && NoFailure(steps[..k]) && steps[k].Fail?
    ensures
      var (xs, selfDone) := SelfOf(steps[..k]);
      var (ys, otherDone) := OtherOf(steps[..k]);
      Run(steps).out.disposed
      && Run(steps).out.received == Zipped(xs, selfDone, ys, otherDone)
        + if Exhausted(xs, selfDone, ys, otherDone) then [] else [Error(steps[k].error)]
    decreases |steps|
  {
    var front := steps[..|steps| - 1];
    if k == |steps| - 1 {
      ZipsEveryInterleaving(front);
      Lists.ConcatEmpty(Run(front).out.received);
    } else {
      assert front[..k] == steps[..k];
      FailureCutsZip(front, k);
      ClosedStays(Run(front), steps[|steps| - 1]);
    }
  }

  // ----- the object

  class ZipSubscription<A, B> {
    var selfValues: seq<A>
    var otherValues: seq<B>
    var selfCompleted: bool
    var otherCompleted: bool
    var out: Subscriber<(A, B)>

    ghost function View(): State<A, B>
      reads this
    {
      State(selfValues, otherValues, selfCompleted, otherCompleted, out)
    }

    constructor ()
      ensures View() == Initial()
    {
      selfValues, otherValues, selfCompleted, otherCompleted, out := [], [], false, false, NewSubscriber();
    }

    method SendCompletedIfNeeded()
      modifies this`out
      ensures View() == SendCompletedIfNecessary(old(View()))
    {
      var selfEmpty := selfCompleted && selfValues == [];
      var otherEmpty := otherCompleted && otherValues == [];
      if selfEmpty || otherEmpty { out := out.Send(Completed); }
    }

    method SendPair()
      modifies this
      ensures View() == SendNext(old(View()))
    {
      if selfValues == [] || otherValues == [] { return; }
      var pair := (selfValues[0], otherValues[0]);
      selfValues, otherValues := selfValues[1..], otherValues[1..];
      out := out.Send(Next(pair));
      SendCompletedIfNeeded();
    }

    method SelfSends(a: A)
      requires !selfCompleted
      modifies this
      ensures View() == Apply(old(View()), SelfNext(a))
    {
      selfValues := selfValues + [a];
      SendPair();
    }

    method OtherSends(b: B)
      requires !otherCompleted
      modifies this
      ensures View() == Apply(old(View()), OtherNext(b))
    {
      otherValues := otherValues + [b];
      SendPair();
    }

    method SelfCompletes()
      requires !selfCompleted
      modifies this
      ensures View() == Apply(old(View()), Step<A, B>.SelfDone)
    {
      selfCompleted := true;
      SendCompletedIfNeeded();
    }

    method OtherCompletes()
      requires !otherCompleted
      modifies this
      ensures View() == Apply(old(View()), Step<A, B>.OtherDone)
    {
      otherCompleted := true;
      SendCompletedIfNeeded();
    }
  }
}
