/** 64-bit unsigned arithmetic, which wraps around. */
module Words {
  type Word = n: nat | n < 0x1_0000_0000_0000_0000

  /** Sums and differences of words, modulo 2^64. */
  function Plus(a: Word, b: Word): Word {
    if a + b < 0x1_0000_0000_0000_0000 then a + b else a + b - 0x1_0000_0000_0000_0000
  }

  function Minus(a: Word, b: Word): Word {
    if a >= b then a - b else a - b + 0x1_0000_0000_0000_0000
  }

  /** An unbounded number modulo 2^64. */
  ghost function Wrapped(n: nat): Word {
    if n < 0x1_0000_0000_0000_0000 then n else Wrapped(n - 0x1_0000_0000_0000_0000)
  }

  /** Counting modulo 2^64 is counting, then reducing. */
  lemma {:induction false} WrappedSum(a: nat, b: nat)
    ensures Wrapped(a + b) == Plus(Wrapped(a), Wrapped(b))
    ensures Wrapped(a) == Minus(Wrapped(a + b), Wrapped(b))
    decreases a + b
  {
    if a >= 0x1_0000_0000_0000_0000 {
      WrappedSum(a - 0x1_0000_0000_0000_0000, b);
    } else if b >= 0x1_0000_0000_0000_0000 {
      WrappedSum(a, b - 0x1_0000_0000_0000_0000);
    }
  }

  /** Counting up from `start` in words, and the unbounded sum. */
  function CountedUp(start: Word, xs: seq<Word>): Word
    decreases |xs|
  {
    if xs == [] then start else CountedUp(Plus(start, xs[0]), xs[1..])
  }

  ghost function SumOf(xs: seq<Word>): nat {
    if xs == [] then 0 else xs[0] + SumOf(xs[1..])
  }

  lemma {:induction false} CountedUpIsSum(start: Word, xs: seq<Word>)
    ensures CountedUp(start, xs) == Wrapped(start + SumOf(xs))
    decreases |xs|
  {
    if xs != [] {
      CountedUpIsSum(Plus(start, xs[0]), xs[1..]);
      SumsChain(start, xs[0], SumOf(xs[1..]));
    }
  }

  lemma SumsChain(a: Word, b: Word, c: nat)
    ensures Wrapped(Plus(a, b) + c) == Wrapped(a + (b + c))
  {
    WrappedSum(a, b);
    WrappedSum(a + b, c);
    WrappedSum(Plus(a, b), c);
  }
}
