/** Facts about built-in sequences that the proofs use by name. */
module Lists {
  lemma ConcatAssociates<T>(a: seq<T>, b: seq<T>, c: seq<T>)
    ensures (a + b) + c == a + (b + c)
  {
  }

  lemma ConcatEmpty<T>(a: seq<T>)
    ensures a + [] == a
    ensures [] + a == a
  {
  }

  lemma TakeAndDrop<T>(a: seq<T>, n: nat)
    requires n <= |a|
    ensures a[..n] + a[n..] == a
  {
  }

  lemma TakeOneMore<T>(a: seq<T>, n: nat)
    requires n < |a|
    ensures a[..n + 1] == a[..n] + [a[n]]
  {
  }

  lemma DropOneLess<T>(a: seq<T>, n: nat)
    requires n < |a|
    ensures a[n..] != [] && a[n..][0] == a[n] && a[n..][1..] == a[n + 1..]
  {
  }

  lemma WithoutLast<T>(a: seq<T>, x: T)
    ensures (a + [x])[..|a|] == a
  {
  }

  lemma FrontAndLast<T>(a: seq<T>)
    requires a != []
    ensures a == a[..|a| - 1] + [a[|a| - 1]]
  {
  }

  lemma PrependToConcat<T>(x: T, a: seq<T>, b: seq<T>)
    ensures [x] + (a + b) == ([x] + a) + b
  {
  }

  lemma HeadIn<T>(a: seq<T>)
    requires a != []
    ensures a[0] in a
  {
  }

  lemma LastIn<T>(a: seq<T>)
    requires a != []
    ensures a[|a| - 1] in a
  {
  }
}
