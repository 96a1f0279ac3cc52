/** RACSequence: linked sequences, the lazy -bind: and the operators built on it. */
module Sequences {
  import Lists
  import opened Options

  /**
   * A sequence as its consumers see it: a chain of cells and what ends it. `NilSequence` is the
   * absence of a sequence object (every message to it answers nil), `EmptySequence` the shared
   * empty sequence, `Exhausted` a dynamic sequence with neither head nor tail, and `Unary` the
   * one-value sequence of +return:, whose tail is nil.
   */
  datatype Sequence<+T> =
    | NilSequence
    | EmptySequence
    | Exhausted
    | Unary(value: T)
    | Cell(first: T, rest: Sequence<T>)
  {
    function Head(): Option<T> {
      match this
      case Unary(v) => Some(v)
      case Cell(v, _) => Some(v)
      case _ => None
    }

    function Tail(): Sequence<T> {
      if Cell? then rest else NilSequence
    }

    function Size(): nat {
      match this
      case Unary(_) => 1
      case Cell(_, r) => 1 + r.Size()
      case _ => 0
    }
  }

  /** The values a consumer enumerates. */
  function List<T>(s: Sequence<T>): (r: seq<T>)
    ensures |r| == s.Size()
  {
    match s
    case Unary(v) => [v]
    case Cell(v, r) => [v] + List(r)
    case _ => []
  }

  function FromArray<T>(xs: seq<T>): (r: Sequence<T>)
    ensures List(r) == xs && EmptyEnded(r)
  {
    if xs == [] then EmptySequence else Cell(xs[0], FromArray(xs[1..]))
  }

  /** The chain ends in a sequence object, not in a missing tail. */
  predicate EmptyEnded<T>(s: Sequence<T>) {
    match s
    case Cell(_, r) => EmptyEnded(r)
    case EmptySequence => true
    case Exhausted => true
    case _ => false
  }

  /**
   * A bind block: from its captured state and a value to the new state, the returned sequence (nil to end) and
   * `stop`.
   */
  type Block<!S, !T, !U> = (S, T) -> (S, Sequence<U>, bool)

  // ----- the lazy bind, as coded

  /** The dependency of a bound node: pull values until the current sequence has a head. */
  function Fetch<S, T, U>(f: Block<S, T, U>, st: S, values: Sequence<T>, current: Sequence<U>, stop: bool)
    : (r: (S, Sequence<T>, Sequence<U>, bool))
    ensures r.1.Size() < values.Size() || (r.1 == values && (r.2.Head().Some? ==> r.2 == current))
    decreases values.Size()
  {
    if current.Head().Some? || stop then (st, values, current, stop)
    else match values.Head()
      case None => (st, values, current, true)
      case Some(v) =>
        var (st', next, stop') := f(st, v);
        if next.NilSequence? then (st', values, next, true) else Fetch(f, st', values.Tail(), next, stop')
  }

  /** -bind:passingThroughValuesFromSequence: on each kind of receiver, nil included. */
  function BindPassing<S, T, U>(f: Block<S, T, U>, st: S, values: Sequence<T>, current: Sequence<U>): Sequence<U>
    decreases values.Size(), current.Size()
  {
    match values
    case NilSequence => NilSequence
    case EmptySequence => if current.NilSequence? then EmptySequence else current
    case _ =>
      var (st', values', current', stop) := Fetch(f, st, values, current, false);
      match current'.Head()
      case None => Exhausted
      case Some(u) => Cell(u, if stop then NilSequence else BindPassing(f, st', values', current'.Tail()))
  }

  /** -bind:, which the one-value sequence overrides. */
  function Bind<S, T, U>(f: Block<S, T, U>, st: S, s: Sequence<T>): Sequence<U> {
    if s.Unary? then
      var answer := f(st, s.value).1;
      if answer.NilSequence? then EmptySequence else answer
    else BindPassing(f, st, s, NilSequence)
  }

  // ----- the documented bind, on lists

  /** The block's sequences one after another, ending after the one returned with `stop` and before a nil. */
  function BindList<S, T, U>(f: Block<S, T, U>, st: S, xs: seq<T>): seq<U> {
    if xs == [] then []
    else
      var (st', answer, stop) := f(st, xs[0]);
      if answer.NilSequence? then [] else List(answer) + if stop then [] else BindList(f, st', xs[1..])
  }

  /**
   * The last sequence the block returns, if the bind ends on it: with `stop`, or because a chain without an
   * end object runs out.
   */
  function LastAnswer<S, T, U>(f: Block<S, T, U>, st: S, xs: seq<T>, endObject: bool): Option<Sequence<U>> {
    if xs == [] then None
    else
      var (st', answer, stop) := f(st, xs[0]);
      if answer.NilSequence? then None
      else if stop || (|xs| == 1 && !endObject) then Some(answer)
      else LastAnswer(f, st', xs[1..], endObject)
  }

  /** What the code produces: the documented list less all but the first value of that last sequence. */
  function Lost<S, T, U>(f: Block<S, T, U>, st: S, xs: seq<T>, endObject: bool): nat {
    match LastAnswer(f, st, xs, endObject)
    case None => 0
    case Some(answer) => if |List(answer)| <= 1 then 0 else |List(answer)| - 1
  }

  lemma {:induction false} LostAtMost<S, T, U>(f: Block<S, T, U>, st: S, xs: seq<T>, endObject: bool)
    ensures Lost(f, st, xs, endObject) <= |BindList(f, st, xs)|
  {
    if xs != [] {
      var (st', answer, stop) := f(st, xs[0]);
      if !answer.NilSequence? && !stop && !(|xs| == 1 && !endObject) {
        LostAtMost(f, st', xs[1..], endObject);
      }
    }
  }

  function DropLast<U>(xs: seq<U>, n: nat): seq<U> {
    if n <= |xs| then xs[..|xs| - n] else []
  }

  function Produced<S, T, U>(f: Block<S, T, U>, st: S, xs: seq<T>, endObject: bool): seq<U> {
    DropLast(BindList(f, st, xs), Lost(f, st, xs, endObject))
  }

  /** The answer to the first value, and whether the bind ends on it. */
  ghost predicate EndsOnFirst<S, T, U>(f: Block<S, T, U>, st: S, xs: seq<T>, endObject: bool)
    requires xs != []
  {
    f(st, xs[0]).2 || (|xs| == 1 && !endObject)
  }

  lemma ProducedFirst<S, T, U>(f: Block<S, T, U>, st: S, xs: seq<T>, endObject: bool)
    requires xs != []
    ensures
      var (st', answer, stop) := f(st, xs[0]);
      Produced(f, st, xs, endObject) ==
        if answer.NilSequence? then []
        else if EndsOnFirst(f, st, xs, endObject) then (if answer.Head().None? then [] else [answer.Head().value])
        else List(answer) + Produced(f, st', xs[1..], endObject)
  {
    var (st', answer, stop) := f(st, xs[0]);
    if answer.NilSequence? {
    } else if EndsOnFirst(f, st, xs, endObject) {
      assert LastAnswer(f, st, xs, endObject) == Some(answer);
      assert BindList(f, st, xs) == List(answer) + if stop then [] else BindList(f, st', []) by {
        if !stop { assert xs[1..] == []; }
      }
    } else {
      LostAtMost(f, st', xs[1..], endObject);
    }
  }

  /** The first pull of a node with nothing to pass through is the pull after the block has answered. */
  lemma BindPassingFirst<S, T, U>(f: Block<S, T, U>, st: S, values: Sequence<T>, current: Sequence<U>)
    requires current.Head().None? && values.Head().Some?
    ensures
      var (st', answer, stop) := f(st, values.Head().value);
      BindPassing(f, st, values, current) ==
        if answer.Head().None? && (answer.NilSequence? || stop) then Exhausted
        else if stop then Cell(answer.Head().value, NilSequence)
        else if values.Tail().EmptySequence? || values.Tail().NilSequence? then
          if answer.Head().None? then Exhausted
          else Cell(answer.Head().value, BindPassing(f, st', values.Tail(), answer.Tail()))
        else BindPassing(f, st', values.Tail(), answer)
  {
    var (st', answer, stop) := f(st, values.Head().value);
    var rest := values.Tail();
    assert Fetch(f, st, values, current, false)
        == if answer.NilSequence? then (st', values, answer, true) else Fetch(f, st', rest, answer, stop);
    if answer.Head().Some? || stop {
      assert Fetch(f, st', rest, answer, stop) == (st', rest, answer, stop);
    } else if rest.Head().None? {
      assert Fetch(f, st', rest, answer, false) == (st', rest, answer, true);
    }
  }

  lemma PullCases<S, T, U>(f: Block<S, T, U>, st: S, values: Sequence<T>, current: Sequence<U>)
    requires current.Head().None? && values.Head().Some?
    ensures
      var (st', answer, stop) := f(st, values.Head().value);
      List(BindPassing(f, st, values, current)) ==
        if answer.NilSequence? then []
        else if stop || values.Tail().NilSequence? then (if answer.Head().None? then [] else [answer.Head().value])
        else List(BindPassing(f, st', values.Tail(), answer))
  {
    var (st', answer, stop) := f(st, values.Head().value);
    BindPassingFirst(f, st, values, current);
    assert BindPassing(f, st', NilSequence, answer.Tail()) == NilSequence;
    if values.Tail().EmptySequence? {
      assert List(BindPassing(f, st', EmptySequence, answer)) == List(answer);
      assert List(BindPassing(f, st', EmptySequence, answer.Tail())) == List(answer.Tail());
    }
  }

  lemma PassCurrent<S, T, U>(f: Block<S, T, U>, st: S, values: Sequence<T>, current: Sequence<U>)
    requires !values.NilSequence? && !values.EmptySequence? && current.Head().Some?
    ensures BindPassing(f, st, values, current)
      == Cell(current.Head().value, BindPassing(f, st, values, current.Tail()))
  {
  }

  lemma NothingPassed<U>(current: Sequence<U>, produced: seq<U>)
    requires current.Head().None?
    ensures List(current) + produced == produced
  {
    Lists.ConcatEmpty(produced);
  }

  lemma PassedFirst<U>(current: Sequence<U>, produced: seq<U>)
    requires current.Head().Some?
    ensures List(current) + produced == [current.Head().value] + (List(current.Tail()) + produced)
  {
    Lists.PrependToConcat(current.Head().value, List(current.Tail()), produced);
  }

  /** The lazy bind enumerates the passed-through values and then the documented list less what is lost. */
  lemma {:induction false} BindPassingList<S, T, U>(f: Block<S, T, U>, st: S, values: Sequence<T>, current: Sequence<U>)
    requires !values.NilSequence?
    ensures List(BindPassing(f, st, values, current))
      == List(current) + Produced(f, st, List(values), EmptyEnded(values))
    decreases values.Size(), current.Size(), 1
  {
    var produced := Produced(f, st, List(values), EmptyEnded(values));
    if values.EmptySequence? {
      Lists.ConcatEmpty(List(current));
    } else if current.Head().Some? {
      BindPassingList(f, st, values, current.Tail());
      PassCurrent(f, st, values, current);
      PassedFirst(current, produced);
    } else {
      NothingPassed(current, produced);
      PullList(f, st, values, current);
    }
  }

  lemma {:induction false} PullList<S, T, U>(f: Block<S, T, U>, st: S, values: Sequence<T>, current: Sequence<U>)
    requires !values.NilSequence? && !values.EmptySequence? && current.Head().None?
    ensures List(BindPassing(f, st, values, current)) == Produced(f, st, List(values), EmptyEnded(values))
    decreases values.Size(), current.Size(), 0
  {
    if values.Head().Some? {
      var (st', answer, stop) := f(st, values.Head().value);
      PullCases(f, st, values, current);
      PulledProduces(f, st, values);
      if !answer.NilSequence? && !stop && !values.Tail().NilSequence? {
        BindPassingList(f, st', values.Tail(), answer);
      }
    }
  }

  lemma PulledProduces<S, T, U>(f: Block<S, T, U>, st: S, values: Sequence<T>)
    requires values.Head().Some?
    ensures
      var (st', answer, stop) := f(st, values.Head().value);
      Produced(f, st, List(values), EmptyEnded(values)) ==
        if answer.NilSequence? then []
        else if stop || values.Tail().NilSequence? then (if answer.Head().None? then [] else [answer.Head().value])
        else List(answer) + Produced(f, st', List(values.Tail()), EmptyEnded(values.Tail()))
  {
    var xs := List(values);
    assert xs[0] == values.Head().value && xs[1..] == List(values.Tail());
    ProducedFirst(f, st, xs, EmptyEnded(values));
    if !values.Tail().NilSequence? {
      assert EmptyEnded(values) == EmptyEnded(values.Tail());
      if |xs| == 1 { assert values.Tail().Size() == 0; }
    }
  }

  /**
   * -bind: gives the documented list if and only if the receiver is a one-value sequence or the
   * bind does not end on an answer of two or more values: on one returned with `stop`, or on the
   * last one of a receiver whose chain has no end object.
   */
  lemma BindMeetsListIff<S, T, U>(f: Block<S, T, U>, st: S, s: Sequence<T>)
    ensures List(Bind(f, st, s)) == BindList(f, st, List(s)) <==>
      s.Unary? || (var last := LastAnswer(f, st, List(s), EmptyEnded(s)); last.None? || |List(last.value)| <= 1)
    ensures List(Bind(f, st, s)) <= BindList(f, st, List(s))
  {
    if s.Unary? {
      assert List(s)[1..] == [];
    } else if !s.NilSequence? {
      BindPassingList(f, st, s, NilSequence);
      LostAtMost(f, st, List(s), EmptyEnded(s));
      var all := BindList(f, st, List(s));
      assert all[..|all|] == all;
      assert List<U>(NilSequence) + Produced(f, st, List(s), EmptyEnded(s)) == Produced(f, st, List(s), EmptyEnded(s));
    }
  }

  /** The eager sequence's -bind: runs the block over the whole array. */
  method EagerBind<S, T, U>(f: Block<S, T, U>, st: S, xs: seq<T>) returns (result: seq<U>)
    ensures result == BindList(f, st, xs)
  {
    var k, state := 0, st;
    result := [];
    while k < |xs|
      invariant 0 <= k <= |xs|
      invariant result + BindList(f, state, xs[k..]) == BindList(f, st, xs)
    {
      var (state', bound, stop) := f(state, xs[k]);
      assert xs[k..][0] == xs[k] && xs[k..][1..] == xs[k + 1..];
      if bound.NilSequence? {
        assert result + [] == result;
        return;
      }
      ghost var rest := if stop then [] else BindList(f, state', xs[k + 1..]);
      assert result + (List(bound) + rest) == (result + List(bound)) + rest;
      result := result + List(bound);
      if stop {
        assert result + [] == result;
        return;
      }
      k, state := k + 1, state';
    }
    assert xs[k..] == [];
  }

  // ----- flattenMap: and the monad laws

  function OrEmpty<T>(s: Sequence<T>): Sequence<T> {
    if s.NilSequence? then EmptySequence else s
  }

  function FlattenBlock<T, U>(g: T -> Sequence<U>): Block<(), T, U> {
    (st, v) => ((), OrEmpty(g(v)), false)
  }

  function FlattenMap<T, U>(g: T -> Sequence<U>, s: Sequence<T>): Sequence<U> {
    Bind(FlattenBlock(g), (), s)
  }

  function ConcatMap<T, U>(g: T -> Sequence<U>, xs: seq<T>): seq<U> {
    if xs == [] then [] else List(g(xs[0])) + ConcatMap(g, xs[1..])
  }

  lemma {:induction false} FlattenList<T, U>(g: T -> Sequence<U>, xs: seq<T>, endObject: bool)
    ensures BindList(FlattenBlock(g), (), xs) == ConcatMap(g, xs)
    ensures LastAnswer(FlattenBlock(g), (), xs, endObject) ==
      if xs == [] || endObject then None else Some(OrEmpty(g(xs[|xs| - 1])))
  {
    if xs != [] {
      FlattenList(g, xs[1..], endObject);
    }
  }

  /**
   * flattenMap: concatenates its sequences unless the receiver's chain has no end object and the last one has
   * several values.
   */
  lemma FlattenMapConcatenatesIff<T, U>(g: T -> Sequence<U>, s: Sequence<T>)
    ensures List(FlattenMap(g, s)) == ConcatMap(g, List(s)) <==>
      s.Unary? || EmptyEnded(s) || List(s) == [] || |List(g(List(s)[|List(s)| - 1]))| <= 1
  {
    FlattenList(g, List(s), EmptyEnded(s));
    BindMeetsListIff(FlattenBlock(g), (), s);
  }

  /** Sequences as +empty, +return: and arrays build them. */
  predicate Whole<T>(s: Sequence<T>) {
    s.Unary? || EmptyEnded(s)
  }

  lemma {:induction false} BindPassingWhole<S(!new), T(!new), U>(
    f: Block<S, T, U>, st: S, values: Sequence<T>, current: Sequence<U>)
    requires forall a, v :: Whole(f(a, v).1) && !f(a, v).2
    requires EmptyEnded(values)
    requires current.NilSequence? || EmptyEnded(current) || (current.Unary? && !values.EmptySequence?)
    ensures EmptyEnded(BindPassing(f, st, values, current))
    decreases values.Size(), current.Size()
  {
    if !values.EmptySequence? {
      if current.Head().Some? {
        BindPassingWhole(f, st, values, current.Tail());
      } else if values.Head().Some? {
        var (st', answer, stop) := f(st, values.Head().value);
        assert Whole(f(st, values.Head().value).1);
        BindPassingFirst(f, st, values, current);
        if values.Tail().EmptySequence? {
          if answer.Head().Some? { BindPassingWhole(f, st', values.Tail(), answer.Tail()); }
        } else {
          BindPassingWhole(f, st', values.Tail(), answer);
        }
      }
    }
  }

  /** Whole sequences are closed under flattenMap:. */
  lemma WholeFlattenMap<T(!new), U>(g: T -> Sequence<U>, s: Sequence<T>)
    requires Whole(s) && forall v :: Whole(g(v))
    ensures Whole(FlattenMap(g, s))
  {
    if EmptyEnded(s) {
      BindPassingWhole(FlattenBlock(g), (), s, NilSequence);
    }
  }

  /** +return: is a left identity of flattenMap:, and a right one on every sequence. */
  lemma ReturnIsIdentity<T, U>(g: T -> Sequence<U>, v: T, s: Sequence<T>)
    ensures FlattenMap(g, Unary(v)) == OrEmpty(g(v))
    ensures List(FlattenMap((x: T) => Unary(x), s)) == List(s)
  {
    var ret := (x: T) => Unary(x);
    FlattenMapConcatenatesIff(ret, s);
    ConcatMapReturn(ret, List(s));
  }

  lemma {:induction false} ConcatMapReturn<T>(ret: T -> Sequence<T>, xs: seq<T>)
    requires forall i :: 0 <= i < |xs| ==> ret(xs[i]) == Unary(xs[i])
    ensures ConcatMap(ret, xs) == xs
  {
    if xs != [] {
      ConcatMapReturn(ret, xs[1..]);
    }
  }

  lemma {:induction false} ConcatMapAppend<T, U>(g: T -> Sequence<U>, xs: seq<T>, ys: seq<T>)
    ensures ConcatMap(g, xs + ys) == ConcatMap(g, xs) + ConcatMap(g, ys)
  {
    if xs == [] {
      assert xs + ys == ys;
    } else {
      assert (xs + ys)[1..] == xs[1..] + ys;
      ConcatMapAppend(g, xs[1..], ys);
      assert List(g(xs[0])) + (ConcatMap(g, xs[1..]) + ConcatMap(g, ys)) == ConcatMap(g, xs) + ConcatMap(g, ys);
    }
  }
}
