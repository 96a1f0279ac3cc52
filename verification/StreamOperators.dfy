/** The RACStream operators, each a block for -bind: with the state the block closes over. */
module StreamOperators {
  import Lists
  import opened Options
  import opened Sequences
  import opened Associativity

  /** Blocks that answer with at most one value lose nothing, whatever the receiver ends in. */
  lemma {:induction false} SmallAnswers<S(!new), T(!new), U>(f: Block<S, T, U>, st: S, xs: seq<T>, endObject: bool)
    requires forall a, v :: |List(f(a, v).1)| <= 1
    ensures Lost(f, st, xs, endObject) == 0
  {
    if xs != [] {
      var (st', answer, stop) := f(st, xs[0]);
      assert |List(f(st, xs[0]).1)| <= 1;
      SmallAnswers(f, st', xs[1..], endObject);
    }
  }

  lemma SmallBind<S(!new), T(!new), U>(f: Block<S, T, U>, st: S, s: Sequence<T>)
    requires forall a, v :: |List(f(a, v).1)| <= 1
    ensures List(Bind(f, st, s)) == BindList(f, st, List(s))
  {
    SmallAnswers(f, st, List(s), EmptyEnded(s));
    BindMeetsListIff(f, st, s);
  }

  /** A value the block passes on, and one it swallows. */
  lemma BindListPass<S, T, U>(f: Block<S, T, U>, st: S, xs: seq<T>, st': S, u: U)
    requires xs != [] && f(st, xs[0]) == (st', Unary(u), false)
    ensures BindList(f, st, xs) == [u] + BindList(f, st', xs[1..])
  {
  }

  lemma BindListSwallow<S, T, U>(f: Block<S, T, U>, st: S, xs: seq<T>, st': S)
    requires xs != [] && f(st, xs[0]) == (st', EmptySequence, false)
    ensures BindList(f, st, xs) == BindList(f, st', xs[1..])
  {
    Lists.ConcatEmpty(BindList(f, st', xs[1..]));
  }

  lemma BindListOne<S, T, U>(f: Block<S, T, U>, st: S, v: T)
    requires !f(st, v).1.NilSequence?
    ensures BindList(f, st, [v]) == List(f(st, v).1)
  {
    assert [v][1..] == [];
    Lists.ConcatEmpty(List(f(st, v).1));
  }

  // ----- take:

  function TakeBlock<T>(count: nat): Block<nat, T, T> {
    (taken, v) =>
      if taken < count then (taken + 1, Unary(v), taken + 1 == count) else (taken, NilSequence, false)
  }

  function Take<T>(s: Sequence<T>, count: nat): Sequence<T> {
    if count == 0 then EmptySequence else Bind(TakeBlock(count), 0, s)
  }

  lemma {:induction false} TakeBind<T>(count: nat, taken: nat, xs: seq<T>)
    requires taken < count
    ensures BindList(TakeBlock(count), taken, xs) == if count - taken <= |xs| then xs[..count - taken] else xs
    decreases xs
  {
    if xs != [] && taken + 1 < count {
      TakeBind(count, taken + 1, xs[1..]);
    }
  }

  lemma TakeTakes<T(!new)>(s: Sequence<T>, count: nat)
    ensures List(Take(s, count)) == if count <= |List(s)| then List(s)[..count] else List(s)
  {
    if count > 0 {
      SmallBind(TakeBlock<T>(count), 0, s);
      TakeBind(count, 0, List(s));
    }
  }

  // ----- skip:

  function SkipBlock<T>(count: nat): Block<nat, T, T> {
    (skipped, v) => if skipped >= count then (skipped, Unary(v), false) else (skipped + 1, EmptySequence, false)
  }

  function Skip<T>(s: Sequence<T>, count: nat): Sequence<T> {
    Bind(SkipBlock(count), 0, s)
  }

  /** The values after the first `n`. */
  function Rest<T>(xs: seq<T>, n: nat): seq<T> {
    if n == 0 || xs == [] then xs else Rest(xs[1..], n - 1)
  }

  lemma {:induction false} RestIsSlice<T>(xs: seq<T>, n: nat)
    ensures Rest(xs, n) == if n <= |xs| then xs[n..] else []
  {
    if n > 0 && xs != [] { RestIsSlice(xs[1..], n - 1); }
  }

  /** Once all have been skipped, everything passes. */
  lemma {:induction false} SkipBindAll<T>(count: nat, xs: seq<T>)
    ensures BindList<nat, T, T>(SkipBlock(count), count, xs) == xs
    decreases xs
  {
    if xs != [] {
      SkipBindAll(count, xs[1..]);
      BindListPass<nat, T, T>(SkipBlock(count), count, xs, count, xs[0]);
      Lists.TakeAndDrop(xs, 1);
    }
  }

  lemma {:induction false} SkipBind<T>(count: nat, skipped: nat, xs: seq<T>)
    requires skipped <= count
    ensures BindList<nat, T, T>(SkipBlock(count), skipped, xs) == Rest(xs, count - skipped)
    decreases xs
  {
    if skipped == count {
      SkipBindAll(count, xs);
    } else if xs != [] {
      SkipBind(count, skipped + 1, xs[1..]);
      BindListSwallow<nat, T, T>(SkipBlock(count), skipped, xs, skipped + 1);
    }
  }

  /** skip: gives the rest, see `RestIsSlice`. */
  lemma SkipSkips<T(!new)>(s: Sequence<T>, count: nat)
    ensures List(Skip(s, count)) == Rest(List(s), count)
  {
    SkipIsBind(s, count);
    SkipBind(count, 0, List(s));
  }

  lemma SkipIsBind<T(!new)>(s: Sequence<T>, count: nat)
    ensures List(Skip(s, count)) == BindList<nat, T, T>(SkipBlock(count), 0, List(s))
  {
    var f := SkipBlock<T>(count);
    assert forall a, v :: f(a, v).1 == Unary(v) || f(a, v).1 == EmptySequence;
    SmallBind(f, 0, s);
  }

  lemma TakeAndSkipSplit<T(!new)>(s: Sequence<T>, count: nat)
    ensures List(Take(s, count)) + List(Skip(s, count)) == List(s)
  {
    var xs := List(s);
    TakeTakes(s, count);
    SkipSkips(s, count);
    RestIsSlice(xs, count);
    if count <= |xs| { Lists.TakeAndDrop(xs, count); } else { Lists.ConcatEmpty(xs); }
  }

  // ----- map: and filter:, through flattenMap:

  function Map<T, U>(s: Sequence<T>, m: T -> U): Sequence<U> {
    FlattenMap(MapAnswer(m), s)
  }

  function MapAnswer<T, U>(m: T -> U): T -> Sequence<U> {
    v => Unary(m(v))
  }

  lemma {:induction false} MapMaps<T, U>(s: Sequence<T>, m: T -> U)
    ensures List(Map(s, m)) == seq(|List(s)|, i requires 0 <= i < |List(s)| => m(List(s)[i]))
  {
    FlattenMapConcatenatesIff(MapAnswer(m), s);
    MapList(m, List(s));
  }

  lemma {:induction false} MapList<T, U>(m: T -> U, xs: seq<T>)
    ensures ConcatMap(MapAnswer(m), xs) == seq(|xs|, i requires 0 <= i < |xs| => m(xs[i]))
  {
    if xs != [] {
      MapList(m, xs[1..]);
    }
  }

  function Filter<T>(s: Sequence<T>, p: T -> bool): Sequence<T> {
    FlattenMap(FilterAnswer(p), s)
  }

  function FilterAnswer<T>(p: T -> bool): T -> Sequence<T> {
    v => if p(v) then Unary(v) else EmptySequence
  }

  /** The values that pass, in order. */
  function Passing<T>(xs: seq<T>, p: T -> bool): seq<T> {
    if xs == [] then [] else (if p(xs[0]) then [xs[0]] else []) + Passing(xs[1..], p)
  }

  lemma {:induction false} FilterFilters<T>(s: Sequence<T>, p: T -> bool)
    ensures List(Filter(s, p)) == Passing(List(s), p)
  {
    FlattenMapConcatenatesIff(FilterAnswer(p), s);
    FilterList(p, List(s));
  }

  lemma {:induction false} FilterList<T>(p: T -> bool, xs: seq<T>)
    ensures ConcatMap(FilterAnswer(p), xs) == Passing(xs, p)
  {
    if xs != [] {
      FilterList(p, xs[1..]);
    }
  }

  // ----- scanWithStart:reduceWithIndex:

  datatype Running<A> = Running(value: A, index: nat)

  function ScanBlock<A, T>(reduce: (A, T, nat) -> A): Block<Running<A>, T, A> {
    (st: Running<A>, v: T) =>
      var next := reduce(st.value, v, st.index);
      (Running(next, st.index + 1), Unary(next), false)
  }

  function Scan<A, T>(s: Sequence<T>, start: A, reduce: (A, T, nat) -> A): Sequence<A> {
    Bind(ScanBlock(reduce), Running(start, 0), s)
  }

  /** The left fold of the first `n` values. */
  function FoldLeft<A, T>(xs: seq<T>, n: nat, start: A, reduce: (A, T, nat) -> A): A
    requires n <= |xs|
  {
    if n == 0 then start else reduce(FoldLeft(xs, n - 1, start, reduce), xs[n - 1], n - 1)
  }

  lemma {:induction false} ScanBind<A, T>(xs: seq<T>, n: nat, start: A, reduce: (A, T, nat) -> A)
    requires n <= |xs|
    ensures BindList(ScanBlock(reduce), Running(FoldLeft(xs, n, start, reduce), n), xs[n..])
      == Folds(xs, n, start, reduce)
    decreases |xs| - n
  {
    if n < |xs| {
      var next := FoldLeft(xs, n + 1, start, reduce);
      ScanBind(xs, n + 1, start, reduce);
      FoldsFirst(xs, n, start, reduce);
      Lists.DropOneLess(xs, n);
      ScanBindFirst(xs[n..], FoldLeft(xs, n, start, reduce), n, reduce);
    }
  }

  lemma ScanBindFirst<A, T>(xs: seq<T>, before: A, n: nat, reduce: (A, T, nat) -> A)
    requires xs != []
    ensures
      var next := reduce(before, xs[0], n);
      BindList(ScanBlock(reduce), Running(before, n), xs)
        == [next] + BindList(ScanBlock(reduce), Running(next, n + 1), xs[1..])
  {
    var next := reduce(before, xs[0], n);
    assert ScanBlock(reduce)(Running(before, n), xs[0]) == (Running(next, n + 1), Unary(next), false);
  }

  lemma FoldsFirst<A, T>(xs: seq<T>, n: nat, start: A, reduce: (A, T, nat) -> A)
    requires n < |xs|
    ensures Folds(xs, n, start, reduce) == [FoldLeft(xs, n + 1, start, reduce)] + Folds(xs, n + 1, start, reduce)
  {
  }

  /** The folds of the first n + 1, n + 2, ... values. */
  function Folds<A, T>(xs: seq<T>, n: nat, start: A, reduce: (A, T, nat) -> A): seq<A>
    requires n <= |xs|
  {
    seq(|xs| - n, i requires 0 <= i < |xs| - n => FoldLeft(xs, n + i + 1, start, reduce))
  }

  /** Value `i` of the scan is the fold of the first i + 1 values, so the last one is the aggregate. */
  lemma ScanFolds<A(!new), T(!new)>(s: Sequence<T>, start: A, reduce: (A, T, nat) -> A)
    ensures
      var xs := List(s);
      && |List(Scan(s, start, reduce))| == |xs|
      && forall i :: 0 <= i < |xs| ==> List(Scan(s, start, reduce))[i] == FoldLeft(xs, i + 1, start, reduce)
  {
    SmallBind(ScanBlock(reduce), Running(start, 0), s);
    assert List(s)[0..] == List(s);
    ScanBind(List(s), 0, start, reduce);
  }

  // ----- takeUntilBlock: and skipUntilBlock:

  function TakeUntilBlock<T>(p: T -> bool): Block<(), T, T> {
    (st, v) => if p(v) then (st, NilSequence, false) else (st, Unary(v), false)
  }

  function TakeUntil<T>(s: Sequence<T>, p: T -> bool): Sequence<T> {
    Bind(TakeUntilBlock(p), (), s)
  }

  function SkipUntilBlock<T>(p: T -> bool): Block<bool, T, T> {
    (skipping, v) =>
      if skipping && !p(v) then (true, EmptySequence, false) else (false, Unary(v), false)
  }

  function SkipUntil<T>(s: Sequence<T>, p: T -> bool): Sequence<T> {
    Bind(SkipUntilBlock(p), true, s)
  }

  /** The position of the first value that passes, or the length. */
  function FirstIndex<T>(xs: seq<T>, p: T -> bool): (n: nat)
    ensures n <= |xs| && (forall i :: 0 <= i < n ==> !p(xs[i])) && (n < |xs| ==> p(xs[n]))
  {
    if xs == [] || p(xs[0]) then 0 else 1 + FirstIndex(xs[1..], p)
  }

  lemma {:induction false} TakeUntilBind<T>(p: T -> bool, xs: seq<T>)
    ensures BindList(TakeUntilBlock(p), (), xs) == xs[..FirstIndex(xs, p)]
  {
    if xs != [] {
      TakeUntilBind(p, xs[1..]);
      if !p(xs[0]) { assert xs[..FirstIndex(xs, p)] == [xs[0]] + xs[1..][..FirstIndex(xs[1..], p)]; }
    }
  }

  lemma {:induction false} SkippedBind<T>(p: T -> bool, xs: seq<T>)
    ensures BindList(SkipUntilBlock(p), false, xs) == xs
  {
    if xs != [] {
      SkippedBind(p, xs[1..]);
      BindListPass(SkipUntilBlock(p), false, xs, false, xs[0]);
      Lists.TakeAndDrop(xs, 1);
    }
  }

  lemma {:induction false} SkipUntilBind<T>(p: T -> bool, xs: seq<T>)
    ensures BindList(SkipUntilBlock(p), true, xs) == xs[FirstIndex(xs, p)..]
  {
    if xs != [] {
      if p(xs[0]) {
        SkippedBind(p, xs);
      } else {
        SkipUntilBind(p, xs[1..]);
        BindListSwallow(SkipUntilBlock(p), true, xs, true);
        assert xs[FirstIndex(xs, p)..] == xs[1..][FirstIndex(xs[1..], p)..];
      }
    }
  }

  /** takeUntilBlock: and skipUntilBlock: split a sequence before the first value that passes. */
  lemma UntilSplits<T(!new)>(s: Sequence<T>, p: T -> bool)
    ensures List(TakeUntil(s, p)) == List(s)[..FirstIndex(List(s), p)]
    ensures List(SkipUntil(s, p)) == List(s)[FirstIndex(List(s), p)..]
  {
    SmallBind(TakeUntilBlock(p), (), s);
    SmallBind(SkipUntilBlock(p), true, s);
    TakeUntilBind(p, List(s));
    SkipUntilBind(p, List(s));
  }

  // ----- distinctUntilChanged

  function DistinctBlock<T(==)>(): Block<Option<T>, T, T> {
    (last, v) => if last == Some(v) then (last, EmptySequence, false) else (Some(v), Unary(v), false)
  }

  function DistinctUntilChanged<T(==)>(s: Sequence<T>): Sequence<T> {
    Bind(DistinctBlock(), None, s)
  }

  /** The values that differ from the one before them. */
  function Changes<T(==)>(xs: seq<T>): seq<T> {
    if |xs| <= 1 then xs
    else Changes(xs[..|xs| - 1]) + (if xs[|xs| - 1] == xs[|xs| - 2] then [] else [xs[|xs| - 1]])
  }

  lemma {:induction false} BindListAppend<S, T, U>(f: Block<S, T, U>, st: S, xs: seq<T>, end: S, v: T)
    requires Through(f, st, xs) == Some(end)
    ensures BindList(f, st, xs + [v]) == BindList(f, st, xs) + BindList(f, end, [v])
  {
    if xs == [] {
      assert xs + [v] == [v];
    } else {
      var (st', answer, stop) := f(st, xs[0]);
      assert (xs + [v])[1..] == xs[1..] + [v];
      BindListAppend(f, st', xs[1..], end, v);
      assert List(answer) + (BindList(f, st', xs[1..]) + BindList(f, end, [v]))
        == BindList(f, st, xs) + BindList(f, end, [v]);
    }
  }

  /** The block's state after all of `xs`, if it did not end the bind. */
  function Through<S, T, U>(f: Block<S, T, U>, st: S, xs: seq<T>): Option<S> {
    if xs == [] then Some(st)
    else
      var (st', answer, stop) := f(st, xs[0]);
      if answer.NilSequence? || stop then None else Through(f, st', xs[1..])
  }

  lemma {:induction false} DistinctThrough<T>(last: Option<T>, xs: seq<T>)
    ensures Through(DistinctBlock<T>(), last, xs) == Some(if xs == [] then last else Some(xs[|xs| - 1]))
    decreases xs
  {
    if xs != [] {
      DistinctThrough(Some(xs[0]), xs[1..]);
    }
  }

  lemma DistinctBindOne<T>(x: T)
    ensures BindList(DistinctBlock<T>(), None, [x]) == Changes([x])
  {
    BindListOne(DistinctBlock<T>(), None, x);
  }

  lemma {:induction false} DistinctBind<T>(xs: seq<T>)
    ensures BindList(DistinctBlock<T>(), None, xs) == Changes(xs)
  {
    if |xs| == 1 {
      DistinctBindOne(xs[0]);
      Lists.FrontAndLast(xs);
      Lists.ConcatEmpty([xs[0]]);
    } else if |xs| > 1 {
      var front := xs[..|xs| - 1];
      DistinctBind(front);
      DistinctThrough<T>(None, front);
      DistinctBindMore(front, xs[|xs| - 1]);
      ChangesMore(front, xs[|xs| - 1]);
      Lists.FrontAndLast(xs);
    }
  }

  lemma ChangesMore<T>(front: seq<T>, v: T)
    requires front != []
    ensures Changes(front + [v]) == Changes(front) + if v == front[|front| - 1] then [] else [v]
  {
    Lists.WithoutLast(front, v);
  }

  lemma DistinctBindMore<T>(front: seq<T>, v: T)
    requires front != [] && Through(DistinctBlock<T>(), None, front) == Some(Some(front[|front| - 1]))
    ensures BindList(DistinctBlock<T>(), None, front + [v])
      == BindList(DistinctBlock<T>(), None, front) + if v == front[|front| - 1] then [] else [v]
  {
    BindListAppend(DistinctBlock<T>(), None, front, Some(front[|front| - 1]), v);
    BindListOne(DistinctBlock<T>(), Some(front[|front| - 1]), v);
  }

  lemma DistinctKeepsChanges<T(!new)>(s: Sequence<T>)
    ensures List(DistinctUntilChanged(s)) == Changes(List(s))
  {
    SmallBind(DistinctBlock<T>(), None, s);
    DistinctBind(List(s));
  }

  // ----- concat: and zipWith:

  function Itself<T>(): Sequence<T> -> Sequence<T> {
    s => s
  }

  function ConcatWith<T>(s: Sequence<T>, t: Sequence<T>): Sequence<T> {
    FlattenMap(Itself<T>(), Cell(s, Cell(t, EmptySequence)))
  }

  lemma ConcatAppends<T>(s: Sequence<T>, t: Sequence<T>)
    ensures List(ConcatWith(s, t)) == List(s) + List(t)
  {
    var pair := Cell(s, Cell(t, EmptySequence));
    assert EmptyEnded(Cell(t, EmptySequence));
    FlattenMapConcatenatesIff(Itself<T>(), pair);
    assert List(pair) == [s] + [t];
    ConcatMapAppend(Itself<T>(), [s], [t]);
    ConcatMapOne(Itself<T>(), s);
    ConcatMapOne(Itself<T>(), t);
  }

  function Zip<T, U>(s: Sequence<T>, t: Sequence<U>): Sequence<(T, U)>
    decreases s.Size()
  {
    if s.Head().None? || t.Head().None? then Exhausted
    else
      var ends := s.Tail().NilSequence? || s.Tail().EmptySequence? || t.Tail().NilSequence? || t.Tail().EmptySequence?;
      Cell((s.Head().value, t.Head().value), if ends then NilSequence else Zip(s.Tail(), t.Tail()))
  }

  lemma {:induction false} ZipPairs<T, U>(s: Sequence<T>, t: Sequence<U>)
    ensures
      var n := if |List(s)| <= |List(t)| then |List(s)| else |List(t)|;
      List(Zip(s, t)) == seq(n, i requires 0 <= i < n => (List(s)[i], List(t)[i]))
    decreases s.Size()
  {
    if s.Head().Some? && t.Head().Some? {
      assert List(s)[1..] == List(s.Tail()) && List(t)[1..] == List(t.Tail());
      ZipPairs(s.Tail(), t.Tail());
    }
  }

  // ----- operators whose result has no end object

  lemma {:induction false} TakeHasNoEnd<T>(count: nat, taken: nat, s: Sequence<T>)
    requires taken < count && count - taken <= |List(s)|
    ensures !EmptyEnded(BindPassing(TakeBlock<T>(count), taken, s, NilSequence))
    ensures BindPassing(TakeBlock<T>(count), taken, s, NilSequence).Cell?
    decreases s.Size()
  {
    BindPassingFirst(TakeBlock<T>(count), taken, s, NilSequence);
    if taken + 1 < count {
      var rest := s.Tail();
      var f := TakeBlock<T>(count);
      assert |List(rest)| == |List(s)| - 1 >= 1;
      assert !rest.EmptySequence? && !rest.NilSequence?;
      var (next, answer, stop) := f(taken, s.Head().value);
      assert next == taken + 1 && answer == Unary(s.Head().value) && !stop;
      assert BindPassing(f, taken, s, NilSequence) == BindPassing(f, next, rest, answer);
      assert BindPassing(f, next, rest, answer) == Cell(s.Head().value, BindPassing(f, next, rest, NilSequence));
      TakeHasNoEnd(count, taken + 1, rest);
    }
  }

  /**
   * flattenMap: after a take: that reached its count concatenates if and only if the sequence for
   * the last value taken has at most one value; otherwise the rest of that sequence is missing.
   */
  lemma FlattenMapAfterTakeIff<T(!new), U>(s: Sequence<T>, count: nat, g: T -> Sequence<U>)
    requires !s.Unary? && 0 < count <= |List(s)|
    ensures List(FlattenMap(g, Take(s, count))) == ConcatMap(g, List(s)[..count])
      <==> |List(g(List(s)[count - 1]))| <= 1
  {
    TakeTakes(s, count);
    TakeHasNoEnd(count, 0, s);
    FlattenMapConcatenatesIff(g, Take(s, count));
  }

  function Twice(): int -> Sequence<int> {
    x => Cell(x, Cell(x, EmptySequence))
  }

  function OneOfTwo(): int -> Sequence<int> {
    x => Take(FromArray([x, x]), 1)
  }

  /** OneOfTwo answers with one value and no end object; Twice with two. */
  lemma OneOfTwoIs(x: int)
    ensures OneOfTwo()(x) == Cell(x, NilSequence)
  {
    assert FromArray([x, x]) == Cell(x, FromArray([x])) by { assert [x, x][1..] == [x]; }
    BindPassingFirst(TakeBlock<int>(1), 0, FromArray([x, x]), NilSequence);
    assert TakeBlock<int>(1)(0, x) == (1, Unary(x), true);
  }

  lemma OneByOneThenTwice(x: int)
    ensures List(FlattenMap(Twice(), FlattenMap(OneOfTwo(), FromArray([x])))) == [x, x]
  {
    var s := FromArray([x]);
    assert [x][1..] == [] && s == Cell(x, FromArray([]));
    OneOfTwoIs(x);
    BindPassingFirst(FlattenBlock(OneOfTwo()), (), s, NilSequence);
    assert FlattenMap(OneOfTwo(), s) == Cell(x, EmptySequence);
    FlattenMapConcatenatesIff(Twice(), Cell(x, EmptySequence));
    assert List(Cell(x, EmptySequence)) == [x];
    assert ConcatMap(Twice(), [x]) == [x, x] + ConcatMap(Twice(), []);
  }

  /** At the end of a chain without an end object the first value of the last answer is all that comes. */
  lemma LastAnswerCut<T, U>(g: T -> Sequence<U>, x: T, y: U)
    requires g(x) == Cell(y, Cell(y, EmptySequence))
    ensures FlattenMap(g, Cell(x, NilSequence)) == Cell(y, NilSequence)
  {
    BindPassingFirst(FlattenBlock(g), (), Cell(x, NilSequence), NilSequence);
  }

  lemma ComposedIs(x: int)
    ensures Compose(OneOfTwo(), Twice())(x) == Cell(x, NilSequence)
  {
    OneOfTwoIs(x);
    LastAnswerCut(Twice(), x, x);
  }

  lemma ConcatOfOne<T, U>(g: T -> Sequence<U>, x: T)
    ensures List(FlattenMap(g, FromArray([x]))) == List(g(x))
  {
    assert [x][1..] == [] && FromArray([x]) == Cell(x, FromArray([]));
    assert List(FromArray([x])) == [x] && EmptyEnded(FromArray([x]));
    FlattenMapConcatenatesIff(g, FromArray([x]));
    ConcatMapOne(g, x);
  }

  lemma ComposedOneByOne(x: int)
    ensures List(FlattenMap(Compose(OneOfTwo(), Twice()), FromArray([x]))) == [x]
  {
    ComposedIs(x);
    ConcatOfOne(Compose(OneOfTwo(), Twice()), x);
    assert List(Cell(x, NilSequence)) == [x];
  }

  /** Off whole sequences associativity fails: the block's take: leaves no end object behind. */
  lemma FlattenMapDoesNotAssociate(x: int)
    ensures
      var s := FromArray([x]);
      && List(FlattenMap(Twice(), FlattenMap(OneOfTwo(), s))) == [x, x]
      && List(FlattenMap(Compose(OneOfTwo(), Twice()), s)) == [x]
  {
    OneByOneThenTwice(x);
    ComposedOneByOne(x);
  }
}
