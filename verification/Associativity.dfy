/** Is flattenMap: on sequences associative? Exactly when, for every receiver and every pair of blocks. */
module Associativity {
  import Lists
  import opened Options
  import opened Sequences

  function Compose<T, U, W>(g: T -> Sequence<U>, h: U -> Sequence<W>): T -> Sequence<W> {
    v => FlattenMap(h, g(v))
  }

  /** A chain with nothing at its end, where the bind cuts its last answer short. */
  predicate Endless<T>(s: Sequence<T>) {
    !s.Unary? && !EmptyEnded(s)
  }

  /** How many values `flattenMap:` loses of the last answer. */
  function Loss<T, U>(g: T -> Sequence<U>, s: Sequence<T>): nat {
    if !Endless(s) || List(s) == [] then 0
    else
      var last := List(g(List(s)[|List(s)| - 1]));
      if |last| <= 1 then 0 else |last| - 1
  }

  lemma {:induction false} ConcatMapLast<T, U>(g: T -> Sequence<U>, xs: seq<T>)
    requires xs != []
    ensures ConcatMap(g, xs) == ConcatMap(g, xs[..|xs| - 1]) + List(g(xs[|xs| - 1]))
  {
    var front, last := xs[..|xs| - 1], xs[|xs| - 1];
    Lists.FrontAndLast(xs);
    ConcatMapAppend(g, front, [last]);
    ConcatMapOne(g, last);
  }

  lemma ConcatMapOne<T, U>(g: T -> Sequence<U>, x: T)
    ensures ConcatMap(g, [x]) == List(g(x))
  {
    assert [x][1..] == [];
    Lists.ConcatEmpty(List(g(x)));
  }

  /** The concatenation less what is lost at its end. */
  lemma FlattenMapList<T, U>(g: T -> Sequence<U>, s: Sequence<T>)
    ensures Loss(g, s) <= |ConcatMap(g, List(s))|
    ensures List(FlattenMap(g, s)) == DropLast(ConcatMap(g, List(s)), Loss(g, s))
  {
    var xs := List(s);
    if s.Unary? {
      ConcatMapOne(g, s.value);
    } else if !s.NilSequence? {
      FlattenList(g, xs, EmptyEnded(s));
      BindPassingList(FlattenBlock(g), (), s, NilSequence);
      Lists.ConcatEmpty(Produced(FlattenBlock(g), (), xs, EmptyEnded(s)));
      if xs != [] { ConcatMapLast(g, xs); }
    }
  }

  lemma DropNothing<T>(xs: seq<T>)
    ensures DropLast(xs, 0) == xs
  {
  }

  lemma DropFromSecond<T>(a: seq<T>, b: seq<T>, n: nat)
    requires n <= |b|
    ensures DropLast(a + b, n) == a + DropLast(b, n)
  {
  }

  // ----- composing inside

  function TotalLoss<T, U, W>(g: T -> Sequence<U>, h: U -> Sequence<W>, xs: seq<T>): nat {
    if xs == [] then 0 else TotalLoss(g, h, xs[..|xs| - 1]) + Loss(h, g(xs[|xs| - 1]))
  }

  /** The composed blocks give what the blocks one after the other give, less what each answer loses. */
  lemma {:induction false} ComposedLength<T, U, W>(g: T -> Sequence<U>, h: U -> Sequence<W>, xs: seq<T>)
    ensures |ConcatMap(Compose(g, h), xs)| + TotalLoss(g, h, xs) == |ConcatMap(h, ConcatMap(g, xs))|
    decreases |xs|
  {
    if xs != [] {
      var front, last := xs[..|xs| - 1], xs[|xs| - 1];
      ComposedLength(g, h, front);
      ConcatMapLast(Compose(g, h), xs);
      ConcatMapLast(g, xs);
      ConcatMapAppend(h, ConcatMap(g, front), List(g(last)));
      FlattenMapList(h, g(last));
    }
  }

  lemma {:induction false} ComposedWithoutLoss<T, U, W>(g: T -> Sequence<U>, h: U -> Sequence<W>, xs: seq<T>)
    requires TotalLoss(g, h, xs) == 0
    ensures ConcatMap(Compose(g, h), xs) == ConcatMap(h, ConcatMap(g, xs))
    decreases |xs|
  {
    if xs != [] {
      var front, last := xs[..|xs| - 1], xs[|xs| - 1];
      ComposedWithoutLoss(g, h, front);
      ConcatMapLast(Compose(g, h), xs);
      ConcatMapLast(g, xs);
      ConcatMapAppend(h, ConcatMap(g, front), List(g(last)));
      FlattenMapList(h, g(last));
      DropNothing(ConcatMap(h, List(g(last))));
    }
  }

  /** Where in the whole concatenation the only value lost is. */
  function LostAt<T, U, W>(g: T -> Sequence<U>, h: U -> Sequence<W>, xs: seq<T>): int
    requires TotalLoss(g, h, xs) == 1
  {
    var n := |xs| - 1;
    if Loss(h, g(xs[n])) == 1 then |ConcatMap(h, ConcatMap(g, xs))| - 1 else LostAt(g, h, xs[..n])
  }

  lemma {:induction false} ComposedLosesOne<T, U, W>(g: T -> Sequence<U>, h: U -> Sequence<W>, xs: seq<T>)
    requires TotalLoss(g, h, xs) == 1
    ensures
      var all, k := ConcatMap(h, ConcatMap(g, xs)), LostAt(g, h, xs);
      0 <= k < |all| && ConcatMap(Compose(g, h), xs) == all[..k] + all[k + 1..]
    decreases |xs|
  {
    var front, last := xs[..|xs| - 1], xs[|xs| - 1];
    var before, here := ConcatMap(h, ConcatMap(g, front)), ConcatMap(h, List(g(last)));
    ConcatMapLast(Compose(g, h), xs);
    ConcatMapLast(g, xs);
    ConcatMapAppend(h, ConcatMap(g, front), List(g(last)));
    FlattenMapList(h, g(last));
    if Loss(h, g(last)) == 1 {
      ComposedWithoutLoss(g, h, front);
      DropLastOne(before, here);
    } else {
      ComposedLosesOne(g, h, front);
      DropNothing(here);
      DropInFirst(before, here, LostAt(g, h, front));
    }
  }

  lemma DropLastOne<T>(a: seq<T>, b: seq<T>)
    requires b != []
    ensures a + DropLast(b, 1) == (a + b)[..|a + b| - 1] + (a + b)[|a + b|..]
  {
  }

  lemma DropInFirst<T>(a: seq<T>, b: seq<T>, k: nat)
    requires k < |a|
    ensures (a[..k] + a[k + 1..]) + b == (a + b)[..k] + (a + b)[k + 1..]
  {
  }

  /** Taking one value out and putting `z` at the end changes nothing exactly if all from there on are `z`. */
  lemma {:induction false} ShiftIsSameIff<T>(all: seq<T>, k: nat, z: T)
    requires k < |all|
    ensures all == (all[..k] + all[k + 1..]) + [z] <==> forall i :: k <= i < |all| ==> all[i] == z
  {
    var shifted := (all[..k] + all[k + 1..]) + [z];
    assert forall i :: k <= i < |all| - 1 ==> shifted[i] == all[i + 1];
    if all == shifted {
      var i := |all| - 1;
      while i > k
        invariant k <= i < |all|
        invariant forall j :: i <= j < |all| ==> all[j] == z
      {
        assert all[i - 1] == shifted[i - 1] == all[i];
        i := i - 1;
      }
    }
  }

  // ----- how the inner flattenMap: ends

  /** After a receiver with an end object, the result ends as the last answer does, if that has any value. */
  lemma {:induction false} EndsWhole<T, U>(g: T -> Sequence<U>, values: Sequence<T>, current: Sequence<U>)
    requires EmptyEnded(values)
    requires values.EmptySequence? ==> current.NilSequence? || EmptyEnded(current)
    requires
      var xs := List(values);
      xs != [] ==> !Endless(OrEmpty(g(xs[|xs| - 1]))) || List(g(xs[|xs| - 1])) == []
    ensures EmptyEnded(BindPassing(FlattenBlock(g), (), values, current))
    decreases values.Size(), current.Size()
  {
    var f := FlattenBlock(g);
    if !values.EmptySequence? {
      if current.Head().Some? {
        PassCurrent(f, (), values, current);
        EndsWhole(g, values, current.Tail());
      } else if values.Head().Some? {
        var answer, rest := OrEmpty(g(values.Head().value)), values.Tail();
        BindPassingFirst(f, (), values, current);
        LastOfTail(values);
        if rest.EmptySequence? {
          if answer.Head().Some? { EndsWhole(g, rest, answer.Tail()); }
        } else {
          EndsWhole(g, rest, answer);
        }
      }
    }
  }

  lemma LastOfTail<T>(s: Sequence<T>)
    requires s.Head().Some?
    ensures List(s) == [s.Head().value] + List(s.Tail())
    ensures List(s)[|List(s)| - 1] ==
      if List(s.Tail()) == [] then s.Head().value else List(s.Tail())[|List(s.Tail())| - 1]
  {
  }

  /** After a receiver without one, it ends in the first value of the last answer, and without an end object. */
  lemma {:induction false} EndsEndless<T, U>(g: T -> Sequence<U>, values: Sequence<T>, current: Sequence<U>)
    requires !EmptyEnded(values) && List(values) != []
    ensures
      var xs := List(values);
      EmptyEnded(BindPassing(FlattenBlock(g), (), values, current)) <==> List(g(xs[|xs| - 1])) == []
    ensures !BindPassing(FlattenBlock(g), (), values, current).Unary?
    decreases values.Size(), current.Size()
  {
    var f := FlattenBlock(g);
    if current.Head().Some? {
      PassCurrent(f, (), values, current);
      EndsEndless(g, values, current.Tail());
    } else {
      var answer, rest := OrEmpty(g(values.Head().value)), values.Tail();
      BindPassingFirst(f, (), values, current);
      LastOfTail(values);
      if !rest.NilSequence? { EndsEndless(g, rest, answer); }
    }
  }

  lemma InnerEndsWhole<T, U>(g: T -> Sequence<U>, s: Sequence<T>)
    requires EmptyEnded(s) && List(s) != [] && Endless(FlattenMap(g, s))
    ensures
      var last := g(List(s)[|List(s)| - 1]);
      Endless(last) && List(last) != []
  {
    var last := g(List(s)[|List(s)| - 1]);
    if !Endless(OrEmpty(last)) || List(last) == [] { EndsWhole(g, s, NilSequence); }
  }

  // ----- the receivers

  /** The two ways of binding give the same values. */
  ghost predicate Associates<T, U, W>(g: T -> Sequence<U>, h: U -> Sequence<W>, s: Sequence<T>) {
    List(FlattenMap(h, FlattenMap(g, s))) == List(FlattenMap(Compose(g, h), s))
  }

  /**
   * A receiver with an end object: nothing is lost on an answer but the last, and there on both sides or on
   * neither.
   */
  predicate LosesAlike<T, U, W>(g: T -> Sequence<U>, h: U -> Sequence<W>, s: Sequence<T>)
    requires List(s) != []
  {
    var xs := List(s);
    TotalLoss(g, h, xs[..|xs| - 1]) == 0 && (Loss(h, g(xs[|xs| - 1])) == 0 || Endless(FlattenMap(g, s)))
  }

  lemma LastLoss<T, U, W>(g: T -> Sequence<U>, h: U -> Sequence<W>, s: Sequence<T>)
    requires EmptyEnded(s) && List(s) != []
    ensures
      var inner := FlattenMap(g, s);
      Loss(h, inner) == if Endless(inner) then Loss(h, g(List(s)[|List(s)| - 1])) else 0
  {
    var xs, inner := List(s), FlattenMap(g, s);
    if Endless(inner) {
      InnerEndsWhole(g, s);
      FlattenMapList(g, s);
      DropNothing(ConcatMap(g, xs));
      ConcatMapLast(g, xs);
    }
  }

  lemma EndObjectAssociatesIff<T, U, W>(g: T -> Sequence<U>, h: U -> Sequence<W>, s: Sequence<T>)
    requires EmptyEnded(s) && List(s) != []
    ensures Associates(g, h, s) <==> LosesAlike(g, h, s)
  {
    var xs := List(s);
    var front, last := xs[..|xs| - 1], g(xs[|xs| - 1]);
    var inner := FlattenMap(g, s);
    FlattenMapList(g, s);
    DropNothing(ConcatMap(g, xs));
    FlattenMapList(h, inner);
    FlattenMapList(Compose(g, h), s);
    DropNothing(ConcatMap(Compose(g, h), xs));
    LastLoss(g, h, s);
    ComposedLength(g, h, xs);
    if LosesAlike(g, h, s) { AlikeIsEnough(g, h, xs, Loss(h, inner)); }
  }

  lemma AlikeIsEnough<T, U, W>(g: T -> Sequence<U>, h: U -> Sequence<W>, xs: seq<T>, n: nat)
    requires xs != [] && TotalLoss(g, h, xs[..|xs| - 1]) == 0 && n == Loss(h, g(xs[|xs| - 1]))
    ensures DropLast(ConcatMap(h, ConcatMap(g, xs)), n) == ConcatMap(Compose(g, h), xs)
  {
    var front, last := xs[..|xs| - 1], g(xs[|xs| - 1]);
    ComposedWithoutLoss(g, h, front);
    ConcatMapLast(g, xs);
    ConcatMapAppend(h, ConcatMap(g, front), List(last));
    ConcatMapLast(Compose(g, h), xs);
    FlattenMapList(h, last);
    DropFromSecond(ConcatMap(h, ConcatMap(g, front)), ConcatMap(h, List(last)), n);
  }

  function First<T>(xs: seq<T>): seq<T> {
    if xs == [] then [] else [xs[0]]
  }

  /** What a receiver without an end object passes on of the last value's answers, bound one way and the other. */
  function LeftEnd<U, W>(h: U -> Sequence<W>, answer: seq<U>): seq<W> {
    if answer == [] then [] else First(List(h(answer[0])))
  }

  function RightEnd<U, W>(h: U -> Sequence<W>, answer: seq<U>): seq<W> {
    First(ConcatMap(h, answer))
  }

  lemma EndsDiffer<U, W>(h: U -> Sequence<W>, answer: seq<U>)
    ensures LeftEnd(h, answer) == RightEnd(h, answer) || (LeftEnd(h, answer) == [] && |RightEnd(h, answer)| == 1)
    ensures LeftEnd(h, answer) == RightEnd(h, answer)
      <==> ConcatMap(h, answer) == [] || (answer != [] && List(h(answer[0])) != [])
  {
  }

  /** Cutting an answer to its first value. */
  lemma CutToFirst<T>(a: seq<T>, b: seq<T>)
    ensures DropLast(a + b, if |b| <= 1 then 0 else |b| - 1) == a + First(b)
  {
    DropFromSecond(a, b, if |b| <= 1 then 0 else |b| - 1);
  }

  lemma LeftIs<T, U, W>(g: T -> Sequence<U>, h: U -> Sequence<W>, s: Sequence<T>)
    requires Endless(s) && List(s) != []
    ensures
      var xs := List(s);
      List(FlattenMap(h, FlattenMap(g, s)))
        == ConcatMap(h, ConcatMap(g, xs[..|xs| - 1])) + LeftEnd(h, List(g(xs[|xs| - 1])))
  {
    var xs := List(s);
    var before, answer := ConcatMap(g, xs[..|xs| - 1]), List(g(xs[|xs| - 1]));
    FlattenMapList(g, s);
    ConcatMapLast(g, xs);
    CutToFirst(before, answer);
    var inner := FlattenMap(g, s);
    EndsEndless(g, s, NilSequence);
    FlattenMapList(h, inner);
    if answer == [] {
      Lists.ConcatEmpty(before);
      DropNothing(ConcatMap(h, before));
      Lists.ConcatEmpty(ConcatMap(h, before));
    } else {
      ConcatMapAppend(h, before, [answer[0]]);
      ConcatMapOne(h, answer[0]);
      CutToFirst(ConcatMap(h, before), List(h(answer[0])));
    }
  }

  lemma LossKeepsFirst<T, U>(g: T -> Sequence<U>, s: Sequence<T>)
    ensures First(List(FlattenMap(g, s))) == First(ConcatMap(g, List(s)))
  {
    FlattenMapList(g, s);
    if List(s) != [] { ConcatMapLast(g, List(s)); }
  }

  lemma RightIs<T, U, W>(g: T -> Sequence<U>, h: U -> Sequence<W>, s: Sequence<T>)
    requires Endless(s) && List(s) != []
    ensures
      var xs := List(s);
      List(FlattenMap(Compose(g, h), s))
        == ConcatMap(Compose(g, h), xs[..|xs| - 1]) + RightEnd(h, List(g(xs[|xs| - 1])))
  {
    var xs := List(s);
    var last := g(xs[|xs| - 1]);
    FlattenMapList(Compose(g, h), s);
    ConcatMapLast(Compose(g, h), xs);
    CutToFirst(ConcatMap(Compose(g, h), xs[..|xs| - 1]), List(FlattenMap(h, last)));
    LossKeepsFirst(h, last);
  }

  /** The one value lost and all after it are `z`. */
  predicate LostOnwards<T, U, W(==)>(g: T -> Sequence<U>, h: U -> Sequence<W>, xs: seq<T>, z: W)
    requires TotalLoss(g, h, xs) == 1
  {
    var all := ConcatMap(h, ConcatMap(g, xs));
    forall i :: 0 <= LostAt(g, h, xs) <= i < |all| ==> all[i] == z
  }

  /**
   * A receiver without an end object: nothing is lost on an answer but the last, whose answers begin
   * alike on both sides; or, where the composed side has a value more at its end, one value is lost, and
   * that value and all after it equal the one more.
   */
  predicate EndsAlike<T, U, W(==)>(g: T -> Sequence<U>, h: U -> Sequence<W>, s: Sequence<T>)
    requires List(s) != []
  {
    var xs := List(s);
    var front, answer := xs[..|xs| - 1], List(g(xs[|xs| - 1]));
    if ConcatMap(h, answer) == [] || List(h(answer[0])) != [] then TotalLoss(g, h, front) == 0
    else
      TotalLoss(g, h, front) == 1 && LostOnwards(g, h, front, ConcatMap(h, answer)[0])
  }

  lemma EqualEnds<T>(a: seq<T>, c: seq<T>, e: seq<T>)
    requires |a| == |c| ==> a == c
    ensures a + e == c + e <==> |a| == |c|
  {
    if a + e == c + e { assert |a + e| == |c + e|; }
  }

  lemma FrontsAlikeIff<T, U, W>(g: T -> Sequence<U>, h: U -> Sequence<W>, front: seq<T>, e: seq<W>)
    ensures ConcatMap(h, ConcatMap(g, front)) + e == ConcatMap(Compose(g, h), front) + e
      <==> TotalLoss(g, h, front) == 0
  {
    ComposedLength(g, h, front);
    if TotalLoss(g, h, front) == 0 { ComposedWithoutLoss(g, h, front); }
    EqualEnds(ConcatMap(h, ConcatMap(g, front)), ConcatMap(Compose(g, h), front), e);
  }

  lemma OneMoreAtEndIff<T, U, W>(g: T -> Sequence<U>, h: U -> Sequence<W>, front: seq<T>, z: W)
    ensures ConcatMap(h, ConcatMap(g, front)) == ConcatMap(Compose(g, h), front) + [z]
      <==> TotalLoss(g, h, front) == 1 && LostOnwards(g, h, front, z)
  {
    ComposedLength(g, h, front);
    if TotalLoss(g, h, front) == 1 {
      ComposedLosesOne(g, h, front);
      ShiftIsSameIff(ConcatMap(h, ConcatMap(g, front)), LostAt(g, h, front), z);
    }
  }

  lemma EndlessAssociatesIff<T, U, W>(g: T -> Sequence<U>, h: U -> Sequence<W>, s: Sequence<T>)
    requires Endless(s) && List(s) != []
    ensures Associates(g, h, s) <==> EndsAlike(g, h, s)
  {
    var xs := List(s);
    var front, answer := xs[..|xs| - 1], List(g(xs[|xs| - 1]));
    LeftIs(g, h, s);
    RightIs(g, h, s);
    EndsDiffer(h, answer);
    if ConcatMap(h, answer) == [] || List(h(answer[0])) != [] {
      FrontsAlikeIff(g, h, front, RightEnd(h, answer));
    } else {
      Lists.ConcatEmpty(ConcatMap(h, ConcatMap(g, front)));
      OneMoreAtEndIff(g, h, front, ConcatMap(h, answer)[0]);
    }
  }

  /**
   * Exactly when flattenMap: of flattenMap: is flattenMap: of the composition, for every receiver and every
   * two blocks.
   */
  lemma AssociatesIff<T, U, W>(g: T -> Sequence<U>, h: U -> Sequence<W>, s: Sequence<T>)
    ensures Associates(g, h, s)
      <==> s.Unary? || List(s) == [] || if EmptyEnded(s) then LosesAlike(g, h, s) else EndsAlike(g, h, s)
  {
    if s.Unary? {
      UnaryAssociates(g, h, s.value);
    } else if List(s) == [] {
      NothingAssociates(g, h, s);
    } else if EmptyEnded(s) {
      EndObjectAssociatesIff(g, h, s);
    } else {
      EndlessAssociatesIff(g, h, s);
    }
  }

  lemma UnaryAssociates<T, U, W>(g: T -> Sequence<U>, h: U -> Sequence<W>, v: T)
    ensures Associates(g, h, Unary(v))
  {
    ReturnIsIdentity(g, v, Unary(v));
    ReturnIsIdentity(Compose(g, h), v, Unary(v));
  }

  lemma NothingAssociates<T, U, W>(g: T -> Sequence<U>, h: U -> Sequence<W>, s: Sequence<T>)
    requires List(s) == []
    ensures Associates(g, h, s)
  {
    FlattenMapList(g, s);
    FlattenMapList(h, FlattenMap(g, s));
    FlattenMapList(Compose(g, h), s);
  }

  /** In particular on sequences that arrays, +empty and +return: build, with blocks that answer with such ones. */
  lemma FlattenMapAssociates<T, U, W>(g: T -> Sequence<U>, h: U -> Sequence<W>, s: Sequence<T>)
    requires Whole(s) && forall i :: 0 <= i < |List(s)| ==> Whole(g(List(s)[i]))
    ensures Associates(g, h, s)
  {
    AssociatesIff(g, h, s);
    WholeLosesNothing(g, h, List(s));
  }

  lemma {:induction false} WholeLosesNothing<T, U, W>(g: T -> Sequence<U>, h: U -> Sequence<W>, xs: seq<T>)
    requires forall i :: 0 <= i < |xs| ==> Whole(g(xs[i]))
    ensures TotalLoss(g, h, xs) == 0
    decreases |xs|
  {
    if xs != [] {
      assert Whole(g(xs[|xs| - 1]));
      WholeLosesNothing(g, h, xs[..|xs| - 1]);
    }
  }
}
